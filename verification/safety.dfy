/** Safety of every run: what holds in each reachable state, for any number of
    operations, any interleaving, any failed write and any provider answers. */
module Safety {
  import opened Rows
  import opened Protocol
  import opened Lifecycle
  import opened Phases
  import opened Locking
  import opened Accounts
  import opened Sums

  /** Each move of a stake's amount happens at most once; a hold is never both confirmed
      and released, nor both released and completed; rewards are credited at most once. */
  lemma AtMostOnce(events: seq<Event>, k: nat)
    ensures var t := Count(Run(events).journal, k);
            && t.held <= 1 && t.confirmed + t.released <= t.held && t.completed + t.released <= t.held
            && t.credited <= 1
  {
    PhasesOk(events);
    var s := Run(events);
    assert TallyOk(s.db.stakes, s.ops, k, Count(s.journal, k));
  }

  /** Pending and staked are the sums of the holds' contributions, and the buckets are
      non-negative. */
  lemma ExactAccounting(events: seq<Event>, a: Account)
    requires NoOverwrite(events) && a in Run(events).db.balances
    ensures var s := Run(events);
            var row := s.db.balances[a];
            && row.pending == Sum(PendingPart(s, a), |s.ops|)
            && row.staked == Sum(StakedPart(s, a), |s.ops|)
            && NonNegative(row)
  {
    LedgerOk(events);
    var s := Run(events);
    assert PendingOf(s.db.balances, a) == Sum(PendingPart(s, a), |s.ops|);
  }

  lemma ShareShapes(x: int, t: Tally)
    requires t.held <= 1 && t.confirmed + t.released <= t.held && t.completed + t.released <= t.held
    ensures var p, q := PendingShare(x, t), StakedShare(x, t);
            (p == x && q == 0) || (p == 0 && q == x) || (p == 0 && q == 0) || (p == x && q == -x)
  {
  }

  /** A hold of amount x contributes (x, 0), (0, x), (0, 0) or (x, -x). */
  lemma FourContributions(events: seq<Event>, a: Account, k: nat)
    ensures var s := Run(events);
            var p, q := PendingPart(s, a)(k), StakedPart(s, a)(k);
            if !HoldOn(s.ops, a, k) then p == 0 && q == 0
            else
              var x := Amount(s.ops[k].req);
              (p == x && q == 0) || (p == 0 && q == x) || (p == 0 && q == 0) || (p == x && q == -x)
  {
    var s := Run(events);
    AtMostOnce(events, k);
    if HoldOn(s.ops, a, k) { ShareShapes(Amount(s.ops[k].req), Count(s.journal, k)); }
  }

  // ---- Solvency ------------------------------------------------------------------

  function LivePart(s: State, a: Account): nat -> int {
    (k: nat) => if k in s.db.stakes && s.db.stakes[k].account == a && Live(s.db.stakes[k].state) then s.db.stakes[k].amount else 0
  }

  function CoverPart(s: State, a: Account): nat -> int {
    (k: nat) => PendingPart(s, a)(k) + StakedPart(s, a)(k)
  }

  lemma SharesTogether(amount: int, t: Tally)
    requires 0 <= t.held - t.released - t.completed <= 1
    ensures PendingShare(amount, t) + StakedShare(amount, t) == if t.held - t.released - t.completed == 1 then amount else 0
  {
    assert PendingShare(amount, t) + StakedShare(amount, t) == amount * (t.held - t.released - t.completed);
  }

  /** A live stake is covered by its own hold; no hold counts against it. */
  lemma LiveCovered(s: State, a: Account, k: nat)
    requires PhaseInv(s)
    ensures LivePart(s, a)(k) <= CoverPart(s, a)(k)
  {
    assert TallyOk(s.db.stakes, s.ops, k, Count(s.journal, k));
    if k in s.db.stakes { assert RowOk(s.ops, k, s.db.stakes[k]); }
    assert CoverPart(s, a)(k) == PendingPart(s, a)(k) + StakedPart(s, a)(k);
    if HoldOn(s.ops, a, k) {
      var x, t := Amount(s.ops[k].req), Count(s.journal, k);
      SharesTogether(x, t);
      assert PendingPart(s, a)(k) == PendingShare(x, t);
      assert StakedPart(s, a)(k) == StakedShare(x, t);
      assert LivePart(s, a)(k) <= if t.held - t.released - t.completed == 1 then x else 0;
    }
  }

  /** Pending and staked together always cover the DELEGATING, ACTIVE and UNSTAKING
      stakes, also between a stake write and its balance write and after a skipped one. */
  lemma Solvency(events: seq<Event>, a: Account)
    requires NoOverwrite(events)
    ensures var s := Run(events);
            PendingOf(s.db.balances, a) + StakedOf(s.db.balances, a) >= Sum(LivePart(s, a), |s.ops|)
    ensures forall k :: k in Run(events).db.stakes ==> k < |Run(events).ops|
  {
    LedgerOk(events);
    var s := Run(events);
    var n := |s.ops|;
    forall k | k in s.db.stakes ensures k < n { assert RowOk(s.ops, k, s.db.stakes[k]); }
    forall k | 0 <= k < n ensures LivePart(s, a)(k) <= CoverPart(s, a)(k) { LiveCovered(s, a, k); }
    SumAtMost(LivePart(s, a), CoverPart(s, a), n);
    SumPlus(PendingPart(s, a), StakedPart(s, a), CoverPart(s, a), n);
    assert PendingOf(s.db.balances, a) == Sum(PendingPart(s, a), n);
  }

  // ---- Moves that cannot be refused ----------------------------------------------

  lemma PendingCoversDuty(s: State, st: StakeRow, i: nat)
    requires LedgerInv(s) && i < |s.ops| && s.ops[i].Reconcile? && s.ops[i].st == st && OnDuty(s.ops[i])
    requires s.ops[i].rpc.to == Active || s.ops[i].rpc.to == Failed
    ensures st.account in s.db.balances && s.db.balances[st.account].pending >= st.amount > 0
  {
    var k, a, n := st.id, st.account, |s.ops|;
    assert OpOk(s.db.stakes, s.winners, i, s.ops[i]);
    assert RowOk(s.ops, k, s.db.stakes[k]);
    assert TallyOk(s.db.stakes, s.ops, k, Count(s.journal, k));
    forall j: nat | 0 <= j < n ensures PendingPart(s, a)(j) >= 0 { PendingNonNegative(s, a, j); }
    SumAtLeastTerm(PendingPart(s, a), n, k);
    assert PendingOf(s.db.balances, a) == Sum(PendingPart(s, a), n);
  }

  lemma PendingNonNegative(s: State, a: Account, k: nat)
    requires PhaseInv(s)
    ensures PendingPart(s, a)(k) >= 0
  {
    assert TallyOk(s.db.stakes, s.ops, k, Count(s.journal, k));
  }

  /** A poller that has won its stake write always finds enough pending: `ConfirmStake`
      and the release it makes without looking at the error both succeed. */
  lemma NeverRefused(events: seq<Event>, i: nat)
    requires NoOverwrite(events) && i < |Run(events).ops|
    requires var op := Run(events).ops[i]; op.Reconcile? && op.rpc.ReadForMove? && (op.rpc.to == Active || op.rpc.to == Failed)
    ensures var s := Run(events);
            var st, to := s.ops[i].st, s.ops[i].rpc.to;
            && st.account in s.db.balances
            && Refusal(Settlement(st, to), s.db.balances[st.account]).None?
            && Decide(s.db, i, s.ops[i], Fine).op == Reconcile(st, WriteMove(to, s.db.balances[st.account]))
  {
    LedgerOk(events);
    PendingCoversDuty(Run(events), Run(events).ops[i].st, i);
  }

  lemma MoveNotVoid(s: State, i: nat, st: StakeRow, to: StakeState, seen: BalanceRow)
    requires LedgerInv(s) && i < |s.ops| && s.ops[i] == Reconcile(st, WriteMove(to, seen))
    requires CanWrite(s.db.balances, st.account, Written(st, to, seen), seen) && to == Failed
    ensures Written(st, to, seen) == Settlement(st, to)
  {
    assert CopyOk(s.db.balances, i, s.ops[i]);
    PendingCoversDuty(s, st, i);
  }

  /** So the write with unchanged buckets, which discarding the error allows, never commits:
      a committed poller write is the move its stake calls for. */
  lemma NoVoidWrite(events: seq<Event>, i: nat)
    requires NoOverwrite(events) && i < |Run(events).ops|
    requires var op := Run(events).ops[i]; op.Reconcile? && op.rpc.WriteMove? && op.rpc.to == Failed
    ensures var s := Run(events);
            var st, seen := s.ops[i].st, s.ops[i].rpc.seen;
            CanWrite(s.db.balances, st.account, Written(st, Failed, seen), seen) ==>
              Decide(s.db, i, s.ops[i], Fine).effect == WriteBalance(st.account, Released(st.id, st.amount), seen)
  {
    LedgerOk(events);
    var s := Run(events);
    var st, seen := s.ops[i].st, s.ops[i].rpc.seen;
    if CanWrite(s.db.balances, st.account, Written(st, Failed, seen), seen) { MoveNotVoid(s, i, st, Failed, seen); }
  }

  // ---- The row as a fold of atomic operations ------------------------------------

  /** Concurrent read, compute and versioned write refines atomic operations: the row is
      the fold of the committed operations, each of which passed its guard on the row it
      met; the version counts them; and the money in the row is what entered it. */
  lemma NoLostUpdate(events: seq<Event>, a: Account)
    requires NoOverwrite(events)
    ensures var s := Run(events);
            && Lawful(s.journal)
            && Replay(s.journal, a) == Lookup(s.db.balances, a)
            && (a in s.db.balances ==> s.db.balances[a].version == Writes(s.journal, a))
  {
    LocksOk(events);
    VersionCountsWrites(Run(events).journal, a);
    assert Replay(Run(events).journal, a) == Lookup(Run(events).db.balances, a);
  }

  lemma Conservation(events: seq<Event>, a: Account)
    requires NoOverwrite(events) && a in Run(events).db.balances
    ensures Total(Run(events).db.balances[a]) == Inflow(Run(events).journal, a)
  {
    LocksOk(events);
    TotalIsInflow(Run(events).journal, a);
    assert Replay(Run(events).journal, a) == Lookup(Run(events).db.balances, a);
  }
}
