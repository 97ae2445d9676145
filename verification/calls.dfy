/** The calls that leave the program, and a record of those made.  An operation's program
    counter names its next call, arguments included. */
module Calls {
  import opened Rows
  import opened Protocol

  datatype OutCall =
    | FindKey(key: string)
    | GetBalance(account: Account)
    | UpdateBalance(account: Account, balance: BalanceRow)
    | UpsertBalance(account: Account, balance: BalanceRow)
    | CreateStakeRow(stake: StakeRow)
    | GetStake(id: nat)
    | UpdateStakeRow(stake: StakeRow)
    | SumRewards(id: nat)
    | CreateReward(reward: RewardRow)
    | OrderStake(asset: string, amount: int, clientRef: nat)
    | OrderUnstake(ref: string)
    | QueryStatus(ref: string)
    | NoCall

  /** A call together with its answer. */
  datatype Made = Made(call: OutCall, answer: Answer)

  /** How many calls were made since the protocol last advanced, and the last call made. */
  class Tape {
    ghost var count: nat
    ghost var last: Made

    constructor ()
      ensures count == 0
    {
      count := 0;
    }

    ghost method Record(made: Made)
      modifies this
      ensures count == old(count) + 1 && last == made
    {
      count, last := count + 1, made;
    }
  }

  /** Only a failing database is a fault; a refused write is an answer. */
  function Outcome(err: Option<Error>): Answer {
    if err == Some(DatabaseError) then Fault else Fine
  }

  function NextCall(i: nat, op: Op): OutCall {
    match op
    case Create(req, pc) => CreateCall(i, req, pc)
    case Unstake(k, pc) => UnstakeCall(k, pc)
    case SetBalance(a, x, pc) => SetCall(a, x, pc)
    case Reconcile(st, pc) => ReconcileCall(st, pc)
    case Credit(k, a, amount, date, pc) => CreditCall(i, k, a, amount, date, pc)
  }

  function UnstakeCall(k: nat, pc: UnstakePc): OutCall {
    match pc
    case ReadStake => GetStake(k)
    case CallUnstake(st) => OrderUnstake(st.providerRef)
    case WriteUnstaking(st) => UpdateStakeRow(Moved(st, Unstaking))
    case UnstakeDone(_) => NoCall
  }

  function SetCall(a: Account, x: int, pc: SetPc): OutCall {
    match pc
    case ReadForSet => GetBalance(a)
    case InsertBalance => UpsertBalance(a, BalanceRow(x, 0, 0, 1))
    case WriteSet(seen) => UpdateBalance(a, Apply(Reset(x), seen))
    case SetDone(_) => NoCall
  }

  function ReconcileCall(st: StakeRow, pc: ReconcilePc): OutCall {
    match pc
    case AskStatus => QueryStatus(st.providerRef)
    case WriteStake(to) => UpdateStakeRow(Reconciled(st, to))
    case ReadForMove(_) => GetBalance(st.account)
    case WriteMove(to, seen) => UpdateBalance(st.account, Apply(Written(st, to, seen), seen))
    case ReconcileDone => NoCall
  }

  function CreditCall(i: nat, k: nat, a: Account, amount: int, date: nat, pc: CreditPc): OutCall {
    match pc
    case ReadTotal => SumRewards(k)
    case InsertReward(cumulative) => CreateReward(RewardRow(i, k, a, amount, cumulative, date))
    case ReadForCredit => GetBalance(a)
    case WriteCredit(seen) => UpdateBalance(a, Apply(Credited(i, amount), seen))
    case CreditDone => NoCall
  }

  function CreateCall(i: nat, req: Request, pc: CreatePc): OutCall {
    match pc
    case CheckKey => FindKey(req.key)
    case ReadForHold => GetBalance(req.account)
    case WriteHold(seen) => UpdateBalance(req.account, Apply(Held(i, Amount(req)), seen))
    case InsertStake(_) => CreateStakeRow(PendingStake(i, req))
    case CallStake(_) => OrderStake(req.account.asset, Amount(req), i)
    case MarkFailed(_, reason) => UpdateStakeRow(MarkedFailed(PendingStake(i, req), reason))
    case WriteRollback(seen, _) => UpdateBalance(req.account, Apply(Released(i, Amount(req)), seen))
    case WriteDelegating(validator, ref) => UpdateStakeRow(Delegated(PendingStake(i, req), validator, ref))
    case CreateDone(_) => NoCall
  }
}
