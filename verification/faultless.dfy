/** Runs in which no repository call fails after a hold.  The buckets at rest then agree
    with the stakes if and only if no `CompleteUnstake` was refused on the way. */
module FaultlessRuns {
  import opened Rows
  import opened Protocol
  import opened Lifecycle
  import opened Phases
  import opened Locking
  import opened Accounts
  import opened Agreement
  import opened Safety
  import opened CleanRuns
  import opened Sums

  /** A repository call fails or is refused while money is on hold, or `CompleteUnstake`
      finds too little staked.  The provider may fail as it likes. */
  predicate Setback(s: State, e: Event) {
    e.Advance? && e.op < |s.ops| &&
    var effect := Decide(s.db, e.op, s.ops[e.op], e.answer).effect;
    match s.ops[e.op]
    case Create(_, pc) =>
      || (pc.InsertStake? && !effect.AddStake?)
      || (pc.MarkFailed? && !effect.MoveStake?)
      || (pc.WriteRollback? && !effect.WriteBalance?)
    case Reconcile(st, pc) =>
      || (pc.ReadForMove? && (e.answer != Fine || st.account !in s.db.balances
                              || (pc.to == Withdrawn && Refusal(Settlement(st, pc.to), s.db.balances[st.account]).Some?)))
      || (pc.WriteMove? && !effect.WriteBalance?)
    case _ => false
  }

  /** `CompleteUnstake` finds too little staked on account `a`. */
  predicate Shortfall(s: State, e: Event, a: Account) {
    && e.Advance? && e.op < |s.ops| && e.answer == Fine
    && s.ops[e.op].Reconcile? && s.ops[e.op].rpc == ReadForMove(Withdrawn) && s.ops[e.op].st.account == a
    && a in s.db.balances && s.db.balances[a].staked < s.ops[e.op].st.amount
  }

  predicate AnyShortfall(s: State, e: Event) {
    e.Advance? && e.op < |s.ops| && s.ops[e.op].Reconcile? && Shortfall(s, e, s.ops[e.op].st.account)
  }

  /** No setback but a refused `CompleteUnstake`. */
  predicate Faultless(events: seq<Event>) {
    events == [] ||
    (var before, e := events[..|events| - 1], events[|events| - 1];
     && Faultless(before)
     && (Setback(Run(before), e) ==> AnyShortfall(Run(before), e)))
  }

  predicate NoShortfall(events: seq<Event>, a: Account) {
    events == [] ||
    (var before := events[..|events| - 1];
     NoShortfall(before, a) && !Shortfall(Run(before), events[|events| - 1], a))
  }

  predicate Agrees(s: State, a: Account) {
    && PendingOf(s.db.balances, a) == Sum(WaitingPart(s, a), |s.ops|)
    && StakedOf(s.db.balances, a) == Sum(WorkingPart(s, a), |s.ops|)
  }

  // ---- What a faultless run gives up ---------------------------------------------

  ghost predicate OnlyWithdrawn(s: State) {
    forall k :: k in s.skipped && k < |s.ops| && s.ops[k].Create? ==> k in s.db.stakes && s.db.stakes[k].state == Withdrawn
  }

  /** A release follows a write that marked the stake FAILED. */
  ghost predicate Marked(s: State) {
    forall i :: 0 <= i < |s.ops| && s.ops[i].Create? && s.ops[i].cpc.WriteRollback? ==> s.ops[i].cpc.marked
  }

  lemma ShortfallTurn(s: State, e: Event, a: Account)
    requires StakeInv(s) && Shortfall(s, e, a)
    ensures var st := s.ops[e.op].st;
            && Decide(s.db, e.op, s.ops[e.op], e.answer) == Turn(Reconcile(st, ReconcileDone), NoEffect, Some(st.id))
            && st.id in s.db.stakes && s.db.stakes[st.id].state == Withdrawn && HoldOn(s.ops, a, st.id)
  {
    assert OpOk(s.db.stakes, s.winners, e.op, s.ops[e.op]);
    var st := s.ops[e.op].st;
    assert RowOk(s.ops, st.id, s.db.stakes[st.id]);
  }

  /** Without a setback nothing but a reward is given up. */
  lemma SmoothTurn(s: State, i: nat, answer: Answer)
    requires LedgerInv(s) && Marked(s) && i < |s.ops| && !Setback(s, Advance(i, answer))
    ensures var turn := Decide(s.db, i, s.ops[i], answer);
            && (turn.skip.Some? ==> s.ops[i].Credit? && turn.skip.value == i)
            && (turn.op.Create? && turn.op.cpc.WriteRollback? ==> turn.op.cpc.marked)
  {
    match s.ops[i]
    case Reconcile(st, pc) =>
      if pc.ReadForMove? && pc.to != Withdrawn { assert OpOk(s.db.stakes, s.winners, i, s.ops[i]); PendingCoversDuty(s, st, i); }
      if pc.WriteMove? {
        assert CopyOk(s.db.balances, i, s.ops[i]);
        if pc.to == Failed && CanWrite(s.db.balances, st.account, Written(st, Failed, pc.seen), pc.seen) {
          MoveNotVoid(s, i, st, Failed, pc.seen);
        }
      }
    case _ =>
  }

  /** Which holds of account `a` were given up. */
  predicate GaveUp(s: State, a: Account, k: nat) {
    k in s.skipped && HoldOn(s.ops, a, k)
  }

  /** What a turn without a fault gives up, and what that means for the commit. */
  predicate GivesUpOnly(s: State, i: nat, turn: Turn) {
    && (turn.skip.Some? ==> turn.effect == NoEffect || turn.op.Credit?)
    && (turn.skip.Some? && turn.op.Credit? ==> turn.skip.value == i)
    && (turn.skip.Some? && !turn.op.Credit? ==>
          turn.skip.value in s.db.stakes && s.db.stakes[turn.skip.value].state == Withdrawn)
    && (turn.op.Create? && turn.op.cpc.WriteRollback? ==> turn.op.cpc.marked)
  }

  lemma CommitGivesUp(s: State, i: nat, turn: Turn, a: Account)
    requires i < |s.ops| && SameCall(s.ops[i], turn.op)
    ensures forall k: nat :: GaveUp(Commit(s, i, turn), a, k) <==> GaveUp(s, a, k) || (turn.skip == Some(k) && HoldOn(s.ops, a, k))
  {
  }

  lemma CommitStaysWithdrawn(s: State, i: nat, turn: Turn)
    requires OnlyWithdrawn(s) && i < |s.ops| && SameCall(s.ops[i], turn.op) && GivesUpOnly(s, i, turn)
    requires Evolves(s.db.stakes, Commit(s, i, turn).db.stakes)
    ensures OnlyWithdrawn(Commit(s, i, turn))
  {
  }

  lemma FaultlessCommit(s: State, i: nat, turn: Turn, a: Account)
    requires OnlyWithdrawn(s) && Marked(s) && i < |s.ops| && SameCall(s.ops[i], turn.op) && GivesUpOnly(s, i, turn)
    requires Evolves(s.db.stakes, Commit(s, i, turn).db.stakes)
    ensures OnlyWithdrawn(Commit(s, i, turn)) && Marked(Commit(s, i, turn))
    ensures forall k: nat :: GaveUp(Commit(s, i, turn), a, k) <==> GaveUp(s, a, k) || (turn.skip == Some(k) && HoldOn(s.ops, a, k))
  {
    CommitStaysWithdrawn(s, i, turn);
    CommitGivesUp(s, i, turn, a);
  }

  lemma FaultlessTurn(s: State, e: Event, a: Account)
    requires LedgerInv(s) && Marked(s) && e.Advance? && e.op < |s.ops|
    requires Setback(s, e) ==> AnyShortfall(s, e)
    ensures var turn := Decide(s.db, e.op, s.ops[e.op], e.answer);
            && GivesUpOnly(s, e.op, turn)
            && forall k: nat :: turn.skip == Some(k) && HoldOn(s.ops, a, k) <==> Shortfall(s, e, a) && k == s.ops[e.op].st.id
  {
    if AnyShortfall(s, e) {
      var b := s.ops[e.op].st.account;
      ShortfallTurn(s, e, b);
    } else {
      SmoothTurn(s, e.op, e.answer);
      EveryTurn(s, e.op, e.answer);
    }
  }

  lemma FaultlessStep(s: State, e: Event, a: Account)
    requires LedgerInv(s) && SkipsOk(s) && OnlyWithdrawn(s) && Marked(s)
    requires Setback(s, e) ==> AnyShortfall(s, e)
    ensures OnlyWithdrawn(Step(s, e)) && Marked(Step(s, e))
    ensures forall k: nat :: GaveUp(Step(s, e), a, k) <==> GaveUp(s, a, k) || (Shortfall(s, e, a) && k == s.ops[e.op].st.id)
  {
    if e.Advance? && e.op < |s.ops| {
      EveryTurn(s, e.op, e.answer);
      FaultlessTurn(s, e, a);
      StakeStep(s, e);
      FaultlessCommit(s, e.op, Decide(s.db, e.op, s.ops[e.op], e.answer), a);
    }
  }

  lemma {:induction false} FaultlessRun(events: seq<Event>, a: Account)
    requires NoOverwrite(events) && Faultless(events)
    ensures OnlyWithdrawn(Run(events)) && Marked(Run(events))
    ensures (forall k: nat :: !GaveUp(Run(events), a, k)) <==> NoShortfall(events, a)
  {
    if events != [] {
      var before, e := events[..|events| - 1], events[|events| - 1];
      FaultlessRun(before, a);
      LedgerOk(before);
      DriftsHold(before);
      FaultlessStep(Run(before), e, a);
      if Shortfall(Run(before), e, a) { assert GaveUp(Run(events), a, Run(before).ops[e.op].st.id); }
    }
  }

  // ---- Agreement -----------------------------------------------------------------

  /** A given-up withdrawal leaves too much, never too little: first in pending, and if
      pending is right, then in staked. */
  lemma WithdrawnLeavesMore(s: State, a: Account, k: nat)
    requires PhaseInv(s) && HoldOn(s.ops, a, k) && k in s.db.stakes && s.db.stakes[k].state == Withdrawn
    ensures PendingPart(s, a)(k) >= WaitingPart(s, a)(k)
    ensures PendingPart(s, a)(k) == WaitingPart(s, a)(k) ==> StakedPart(s, a)(k) >= WorkingPart(s, a)(k)
  {
    var x, t := Amount(s.ops[k].req), Count(s.journal, k);
    assert TallyOk(s.db.stakes, s.ops, k, t);
    assert RowOk(s.ops, k, s.db.stakes[k]);
    ShareValues(x, t);
    assert PendingPart(s, a)(k) == PendingShare(x, t) && StakedPart(s, a)(k) == StakedShare(x, t);
  }

  lemma NeverLess(events: seq<Event>, a: Account, k: nat)
    requires NoOverwrite(events) && Faultless(events) && Quiescent(Run(events)) && k < |Run(events).ops|
    ensures var s := Run(events);
            && PendingPart(s, a)(k) >= WaitingPart(s, a)(k)
            && (PendingPart(s, a)(k) == WaitingPart(s, a)(k) ==> StakedPart(s, a)(k) >= WorkingPart(s, a)(k))
  {
    var s := Run(events);
    LedgerOk(events);
    FaultlessRun(events, a);
    if !HoldOn(s.ops, a, k) {
      NoHold(s, a, k);
    } else if k in s.skipped {
      WithdrawnLeavesMore(s, a, k);
    } else {
      DriftIffSkipped(events, a, k);
    }
  }

  lemma {:induction false} EqualSumsMeet(f: nat -> int, g: nat -> int, n: nat, k: nat)
    requires k < n && (forall j :: 0 <= j < n ==> f(j) >= g(j)) && Sum(f, n) == Sum(g, n)
    ensures f(k) == g(k)
  {
    if f(k) > g(k) { SumLess(g, f, n, k); }
  }

  lemma AgreementShowsNoneGivenUp(events: seq<Event>, a: Account, k: nat)
    requires NoOverwrite(events) && Faultless(events) && Quiescent(Run(events)) && Agrees(Run(events), a)
    ensures !GaveUp(Run(events), a, k)
  {
    var s := Run(events);
    var n := |s.ops|;
    if GaveUp(s, a, k) {
      LedgerOk(events);
      assert PendingOf(s.db.balances, a) == Sum(PendingPart(s, a), n);
      forall j: nat | j < n ensures PendingPart(s, a)(j) >= WaitingPart(s, a)(j) { NeverLess(events, a, j); }
      forall j: nat | j < n ensures StakedPart(s, a)(j) >= WorkingPart(s, a)(j) {
        EqualSumsMeet(PendingPart(s, a), WaitingPart(s, a), n, j);
        NeverLess(events, a, j);
      }
      EqualSumsMeet(PendingPart(s, a), WaitingPart(s, a), n, k);
      EqualSumsMeet(StakedPart(s, a), WorkingPart(s, a), n, k);
      DriftIffSkipped(events, a, k);
    }
  }

  /** Provider failures and refused stake writes allowed: the buckets of an account at rest
      agree with its stakes if and only if no withdrawal of the account met the guard of
      `CompleteUnstake`. */
  lemma AgreementIffNoShortfall(events: seq<Event>, a: Account)
    requires NoOverwrite(events) && Faultless(events) && Quiescent(Run(events))
    ensures Agrees(Run(events), a) <==> NoShortfall(events, a)
  {
    FaultlessRun(events, a);
    if NoShortfall(events, a) {
      forall k | k in Run(events).skipped ensures !HoldOn(Run(events).ops, a, k) { assert !GaveUp(Run(events), a, k); }
      AgreementAtRest(events, a);
    } else {
      var k :| GaveUp(Run(events), a, k);
      if Agrees(Run(events), a) { AgreementShowsNoneGivenUp(events, a, k); }
    }
  }
}
