/** The rollback of `CreateStake` after the provider refuses: exact or not at all. */
module Rollback {
  import opened Rows
  import opened Protocol
  import opened Lifecycle
  import opened Phases
  import opened Locking
  import opened Accounts

  /** From the committed hold to the release, the operation carries the held row. */
  predicate Carries(op: Op, req: Request, held: BalanceRow) {
    && op.Create? && op.req == req
    && match op.cpc
       case InsertStake(seen) => seen == held
       case CallStake(seen) => seen == held
       case MarkFailed(seen, _) => seen == held
       case WriteRollback(seen, _) => seen == held
       case WriteDelegating(_, _) => true
       case CreateDone(_) => true
       case _ => false
  }

  lemma CarryTurn(db: Tables, i: nat, req: Request, pc: CreatePc, held: BalanceRow, answer: Answer)
    requires Carries(Create(req, pc), req, held)
    ensures Carries(Create(req, NextCreate(db, i, req, pc, answer).0), req, held)
  {
  }

  lemma {:induction false} HeldCopyCarried(s: State, i: nat, req: Request, held: BalanceRow, events: seq<Event>)
    requires i < |s.ops| && Carries(s.ops[i], req, held)
    ensures var t := RunFrom(s, events); i < |t.ops| && Carries(t.ops[i], req, held)
  {
    if events != [] {
      var before, e := events[..|events| - 1], events[|events| - 1];
      HeldCopyCarried(s, i, req, held, before);
      var t := RunFrom(s, before);
      if e.Advance? && e.op == i { CarryTurn(t.db, i, req, t.ops[i].cpc, held, e.answer); }
    }
  }

  /** A hold commits in `s`, other operations do what they like, and the provider has
      refused: if the release commits, no other write to the row committed since the hold
      and the row is the one before the hold at version v + 2; if not, the whole amount
      stays in pending. */
  lemma RollbackExact(events: seq<Event>, i: nat, between: seq<Event>, answer: Answer)
    requires NoOverwrite(events) && i < |Run(events).ops|
    requires Run(events).ops[i].Create? && Run(events).ops[i].cpc.WriteHold?
    requires var s1 := Step(Run(events), Advance(i, Fine));
             && s1.ops[i].cpc.InsertStake? && NoOverwriteFrom(s1, between)
             && i < |RunFrom(s1, between).ops|
             && RunFrom(s1, between).ops[i].Create? && RunFrom(s1, between).ops[i].cpc.WriteRollback?
    ensures var s := Run(events);
            var s1 := Step(s, Advance(i, Fine));
            var s2 := RunFrom(s1, between);
            var s3 := Step(s2, Advance(i, answer));
            var a := s.ops[i].req.account;
            && a in s.db.balances && a in s3.db.balances
            && if s3.journal != s2.journal then
                 && s2.db.balances[a] == s1.db.balances[a]
                 && Writes(s2.journal, a) == Writes(s1.journal, a)
                 && s3.db.balances[a] == s.db.balances[a].(version := s.db.balances[a].version + 2)
               else
                 && s3.db.balances == s2.db.balances
                 && PendingPart(s3, a)(i) == Amount(s.ops[i].req) && StakedPart(s3, a)(i) == 0
  {
    var s := Run(events);
    var req, a, before := s.ops[i].req, s.ops[i].req.account, s.ops[i].cpc.seen;
    LedgerOk(events);
    assert CopyOk(s.db.balances, i, s.ops[i]);
    LedgerStep(s, Advance(i, Fine));
    var s1 := Step(s, Advance(i, Fine));
    var held := Apply(Held(i, Amount(req)), before);
    assert s1.db.balances[a] == held && s.db.balances[a] == before;
    HeldCopyCarried(s1, i, req, held, between);
    LedgerFrom(s1, between);
    RollbackStep(s1, RunFrom(s1, between), i, req, held, answer);
    ReleaseUndoesHold(i, Amount(req), before);
  }

  /** The release is written on the held row, or the hold is where it was. */
  lemma RollbackTurn(s: State, i: nat, req: Request, held: BalanceRow, marked: bool, answer: Answer)
    requires LedgerInv(s) && i < |s.ops| && s.ops[i] == Create(req, WriteRollback(held, marked))
    ensures var a, t := req.account, Step(s, Advance(i, answer));
            && a in s.db.balances
            && (if t.journal != s.journal then s.db.balances[a].version == held.version && t.db.balances[a] == Apply(Released(i, Amount(req)), held)
                else t.db.balances == s.db.balances)
  {
    assert CopyOk(s.db.balances, i, s.ops[i]);
  }

  lemma StillHeld(s: State, i: nat, req: Request, held: BalanceRow, marked: bool, answer: Answer)
    requires LedgerInv(s) && i < |s.ops| && s.ops[i] == Create(req, WriteRollback(held, marked))
    requires Step(s, Advance(i, answer)).journal == s.journal
    ensures var a, t := req.account, Step(s, Advance(i, answer)); PendingPart(t, a)(i) == Amount(req) && StakedPart(t, a)(i) == 0
  {
    assert OpOk(s.db.stakes, s.winners, i, s.ops[i]);
    assert TallyOk(s.db.stakes, s.ops, i, Count(s.journal, i));
  }

  lemma RollbackStep(s1: State, s2: State, i: nat, req: Request, held: BalanceRow, answer: Answer)
    requires LedgerInv(s1) && LedgerInv(s2) && i < |s2.ops|
    requires req.account in s1.db.balances && s1.db.balances[req.account] == held
    requires Carries(s2.ops[i], req, held) && s2.ops[i].cpc.WriteRollback?
    ensures var s3 := Step(s2, Advance(i, answer));
            var a := req.account;
            && a in s3.db.balances
            && if s3.journal != s2.journal then
                 && a in s2.db.balances && s2.db.balances[a] == s1.db.balances[a]
                 && Writes(s2.journal, a) == Writes(s1.journal, a)
                 && s3.db.balances[a] == Apply(Released(i, Amount(req)), held)
               else
                 && s3.db.balances == s2.db.balances
                 && PendingPart(s3, a)(i) == Amount(req) && StakedPart(s3, a)(i) == 0
  {
    var a := req.account;
    assert CopyOk(s2.db.balances, i, s2.ops[i]);
    RollbackTurn(s2, i, req, held, s2.ops[i].cpc.marked, answer);
    if Step(s2, Advance(i, answer)).journal == s2.journal { StillHeld(s2, i, req, held, s2.ops[i].cpc.marked, answer); }
    assert Replay(s1.journal, a) == Lookup(s1.db.balances, a);
    assert Replay(s2.journal, a) == Lookup(s2.db.balances, a);
    VersionCountsWrites(s1.journal, a);
    VersionCountsWrites(s2.journal, a);
  }
}
