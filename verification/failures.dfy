/** What each operation does when a call fails: a fault of the database or the provider, a
    write refused by the version test, an insert refused by a unique key. */
module Failures {
  import opened Rows
  import opened Protocol

  /** A fault writes nothing and ends the request with the error, except that a provider's
      refusal is rolled back to the end: a failed marking does not stop the release. */
  lemma CreateFault(db: Tables, i: nat, req: Request, pc: CreatePc)
    ensures var turn := Decide(db, i, Create(req, pc), Fault);
            && (!pc.CallStake? ==> turn.effect == NoEffect)
            && (pc.CheckKey? || pc.ReadForHold? || pc.WriteHold? || pc.InsertStake? || pc.WriteDelegating? ==>
                  turn.op == Create(req, CreateDone(Failure(DatabaseError))))
            && (pc.InsertStake? ==> turn.skip == Some(i))
            && (pc.MarkFailed? ==> turn.op == Create(req, WriteRollback(pc.seen, false)))
            && (pc.WriteRollback? ==> turn.op == Create(req, CreateDone(Failure(ProviderError))))
  {
  }

  lemma UnstakeFault(db: Tables, i: nat, k: nat, pc: UnstakePc)
    ensures var turn := Decide(db, i, Unstake(k, pc), Fault);
            && (!pc.CallUnstake? ==> turn.effect == NoEffect)
            && (pc.ReadStake? || pc.WriteUnstaking? ==> turn.op == Unstake(k, UnstakeDone(Failure(DatabaseError))))
            && (pc.CallUnstake? ==> turn.op == Unstake(k, UnstakeDone(Failure(ProviderError))))
  {
  }

  lemma SetFault(db: Tables, i: nat, a: Account, x: int, pc: SetPc)
    requires !pc.SetDone?
    ensures Decide(db, i, SetBalance(a, x, pc), Fault) == Turn(SetBalance(a, x, SetDone(Failure(DatabaseError))), NoEffect, None)
  {
  }

  /** A poller goes on to its next stake; once the stake has moved, its balance is given up. */
  lemma ReconcileFault(db: Tables, i: nat, st: StakeRow, pc: ReconcilePc)
    ensures Decide(db, i, Reconcile(st, pc), Fault)
         == Turn(Reconcile(st, ReconcileDone), NoEffect, if pc.ReadForMove? || pc.WriteMove? then Some(st.id) else None)
  {
  }

  /** A poller goes on to its next entry, except that a failed total counts as zero. */
  lemma CreditFault(db: Tables, i: nat, op: Op)
    requires op.Credit?
    ensures var turn := Decide(db, i, op, Fault);
            && turn.effect == NoEffect
            && turn.op == op.(dpc := if op.dpc.ReadTotal? && op.amount > 0 then InsertReward(op.amount) else CreditDone)
            && (op.dpc.ReadForCredit? || op.dpc.WriteCredit? <==> turn.skip == Some(i))
  {
  }

  /** The balance row is not the one that was read. */
  predicate Stale(balances: map<Account, BalanceRow>, a: Account, seen: BalanceRow) {
    a !in balances || balances[a].version != seen.version
  }

  /** A balance write over another version writes nothing: a hold or a reset is refused with
      the lock's error, a release, a move or a credit is given up. */
  lemma StaleBalance(db: Tables, i: nat, op: Op, seen: BalanceRow)
    ensures op.Create? && op.cpc == WriteHold(seen) && Stale(db.balances, op.req.account, seen) ==>
              Decide(db, i, op, Fine) == Turn(Create(op.req, CreateDone(Failure(OptimisticLock))), NoEffect, None)
    ensures op.SetBalance? && op.spc == WriteSet(seen) && Stale(db.balances, op.account, seen) ==>
              Decide(db, i, op, Fine) == Turn(op.(spc := SetDone(Failure(OptimisticLock))), NoEffect, None)
    ensures op.Create? && op.cpc == WriteRollback(seen, true) && Stale(db.balances, op.req.account, seen) ==>
              Decide(db, i, op, Fine) == Turn(Create(op.req, CreateDone(Failure(ProviderError))), NoEffect, Some(i))
    ensures op.Reconcile? && op.rpc.WriteMove? && op.rpc.seen == seen && Stale(db.balances, op.st.account, seen) ==>
              Decide(db, i, op, Fine) == Turn(Reconcile(op.st, ReconcileDone), NoEffect, Some(op.st.id))
    ensures op.Credit? && op.dpc == WriteCredit(seen) && Stale(db.balances, op.account, seen) ==>
              Decide(db, i, op, Fine) == Turn(op.(dpc := CreditDone), NoEffect, Some(i))
  {
  }

  /** A stake write over another version writes nothing: requests are refused with the lock's
      error and pollers leave the stake and its balance to the winner. */
  lemma StaleStake(db: Tables, i: nat, op: Op)
    ensures op.Create? && op.cpc.WriteDelegating? && (i !in db.stakes || db.stakes[i].version != 1) ==>
              Decide(db, i, op, Fine) == Turn(Create(op.req, CreateDone(Failure(OptimisticLock))), NoEffect, None)
    ensures op.Create? && op.cpc.MarkFailed? && (i !in db.stakes || db.stakes[i].version != 1) ==>
              Decide(db, i, op, Fine) == Turn(Create(op.req, WriteRollback(op.cpc.seen, false)), NoEffect, None)
    ensures op.Unstake? && op.upc.WriteUnstaking?
            && (op.upc.st.id !in db.stakes || db.stakes[op.upc.st.id].version != op.upc.st.version) ==>
              Decide(db, i, op, Fine) == Turn(Unstake(op.stake, UnstakeDone(Failure(OptimisticLock))), NoEffect, None)
    ensures op.Reconcile? && op.rpc.WriteStake? && (op.st.id !in db.stakes || db.stakes[op.st.id].version != op.st.version) ==>
              Decide(db, i, op, Fine) == Turn(Reconcile(op.st, ReconcileDone), NoEffect, None)
  {
  }

  /** Unique keys: a stake whose id or non-empty key is stored, and a reward whose date is, are
      not inserted; the refused stake's hold is kept. */
  lemma Duplicates(db: Tables, i: nat, op: Op)
    ensures op.Create? && op.cpc.InsertStake?
            && (i in db.stakes || (op.req.key != "" && exists k :: k in db.stakes && db.stakes[k].key == op.req.key)) ==>
              Decide(db, i, op, Fine) == Turn(Create(op.req, CreateDone(Failure(ConstraintViolation))), NoEffect, Some(i))
    ensures op.Credit? && op.dpc.InsertReward?
            && (exists r :: 0 <= r < |db.rewards| && db.rewards[r].stake == op.stake && db.rewards[r].date == op.date) ==>
              Decide(db, i, op, Fine) == Turn(op.(dpc := CreditDone), NoEffect, None)
  {
  }
}
