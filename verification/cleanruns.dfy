/** Agreement of the buckets with the stakes at rest: exactly for the stakes nothing was
    given up for. */
module CleanRuns {
  import opened Rows
  import opened Protocol
  import opened Lifecycle
  import opened Phases
  import opened Locking
  import opened Accounts
  import opened Agreement
  import opened Safety
  import opened Sums

  /** The pending bucket is for stakes between request and confirmation. */
  function WaitingPart(s: State, a: Account): nat -> int {
    (k: nat) =>
      if k in s.db.stakes && s.db.stakes[k].account == a && (s.db.stakes[k].state == Pending || s.db.stakes[k].state == Delegating)
      then s.db.stakes[k].amount else 0
  }

  /** The staked bucket is for stakes between confirmation and withdrawal. */
  function WorkingPart(s: State, a: Account): nat -> int {
    (k: nat) =>
      if k in s.db.stakes && s.db.stakes[k].account == a && (s.db.stakes[k].state == Active || s.db.stakes[k].state == Unstaking)
      then s.db.stakes[k].amount else 0
  }

  lemma Settled(s: State, k: nat)
    requires Quiescent(s)
    ensures DebtsOf(s.winners, s.ops, k) == Debts(false, false, false)
  {
  }

  /** Shares by the number of times the amount counts. */
  lemma ShareValues(x: int, t: Tally)
    requires x > 0 && t.held <= 1 && t.confirmed + t.released <= t.held && t.completed + t.released <= t.held
    ensures PendingShare(x, t) == if t.held == 1 && t.confirmed == 0 && t.released == 0 then x else 0
    ensures StakedShare(x, t) == if t.confirmed == t.completed then 0 else if t.confirmed == 1 then x else -x
  {
  }

  lemma RestIff(stakes: map<nat, StakeRow>, k: nat, req: Request, pc: CreatePc, t: Tally, skipped: bool)
    requires pc.CreateDone? && CreateTally(stakes, k, req, pc, t)
    requires DriftOk(stakes, k, pc, t, Debts(false, false, false), skipped)
    requires k in stakes ==> stakes[k].amount == Amount(req)
    ensures var x := Amount(req);
            var p := if k in stakes && (stakes[k].state == Pending || stakes[k].state == Delegating) then x else 0;
            var q := if k in stakes && (stakes[k].state == Active || stakes[k].state == Unstaking) then x else 0;
            skipped <==> !(PendingShare(x, t) == p && StakedShare(x, t) == q)
  {
    if t.held == 1 { ShareValues(Amount(req), t); }
  }

  /** At rest, a hold's contribution differs from what its stake's state calls for exactly
      when a call that had to follow was given up. */
  lemma DriftIffSkipped(events: seq<Event>, a: Account, k: nat)
    requires Quiescent(Run(events)) && HoldOn(Run(events).ops, a, k)
    ensures var s := Run(events);
            k in s.skipped <==> !(PendingPart(s, a)(k) == WaitingPart(s, a)(k) && StakedPart(s, a)(k) == WorkingPart(s, a)(k))
  {
    DriftsHold(events);
    var s := Run(events);
    Settled(s, k);
    assert Finished(s.ops[k]);
    assert DriftAt(s, k);
    assert TallyOk(s.db.stakes, s.ops, k, Count(s.journal, k));
    if k in s.db.stakes { assert RowOk(s.ops, k, s.db.stakes[k]); }
    RestIff(s.db.stakes, k, s.ops[k].req, s.ops[k].cpc, Count(s.journal, k), k in s.skipped);
  }

  /** At rest, with nothing given up on the account, pending is the sum of the PENDING and
      DELEGATING stakes and staked the sum of the ACTIVE and UNSTAKING ones. */
  lemma AgreementAtRest(events: seq<Event>, a: Account)
    requires NoOverwrite(events) && Quiescent(Run(events))
    requires forall k :: k in Run(events).skipped ==> !HoldOn(Run(events).ops, a, k)
    ensures var s := Run(events);
            && PendingOf(s.db.balances, a) == Sum(WaitingPart(s, a), |s.ops|)
            && StakedOf(s.db.balances, a) == Sum(WorkingPart(s, a), |s.ops|)
  {
    LedgerOk(events);
    var s := Run(events);
    var n := |s.ops|;
    forall k: nat | 0 <= k < n
      ensures PendingPart(s, a)(k) == WaitingPart(s, a)(k) && StakedPart(s, a)(k) == WorkingPart(s, a)(k)
    {
      if HoldOn(s.ops, a, k) { DriftIffSkipped(events, a, k); } else { NoHold(s, a, k); }
    }
    SumSame(PendingPart(s, a), WaitingPart(s, a), n);
    SumSame(StakedPart(s, a), WorkingPart(s, a), n);
    assert PendingOf(s.db.balances, a) == Sum(PendingPart(s, a), n);
  }

  lemma NoHold(s: State, a: Account, k: nat)
    requires StakeInv(s) && !HoldOn(s.ops, a, k)
    ensures WaitingPart(s, a)(k) == 0 && WorkingPart(s, a)(k) == 0
  {
    if k in s.db.stakes { assert RowOk(s.ops, k, s.db.stakes[k]); }
  }
}
