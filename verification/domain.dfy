/** The entities as the services hold them in memory: objects whose methods change their
    fields in place. */
module Domain {
  import opened Rows

  class Balance {
    const account: Account
    var available: int
    var pending: int
    var staked: int
    var version: int

    ghost function Row(): BalanceRow
      reads this
    {
      BalanceRow(available, pending, staked, version)
    }

    /** A balance with zero values. */
    constructor (account: Account)
      ensures this.account == account && Row() == BalanceRow(0, 0, 0, 1)
    {
      this.account := account;
      available, pending, staked, version := 0, 0, 0, 1;
    }

    constructor FromRow(account: Account, row: BalanceRow)
      ensures this.account == account && Row() == row
    {
      this.account := account;
      available, pending, staked, version := row.available, row.pending, row.staked, row.version;
    }

    method Hold(amount: int) returns (err: Option<Error>)
      modifies this
      ensures err == if amount <= 0 then Some(InvalidAmount) else if old(available) < amount then Some(InsufficientBalance) else None
      ensures Row() == if err.Some? then old(Row())
                       else old(Row()).(available := old(available) - amount, pending := old(pending) + amount)
    {
      if amount <= 0 { return Some(InvalidAmount); }
      if available < amount { return Some(InsufficientBalance); }
      available := available - amount;
      pending := pending + amount;
      return None;
    }

    method ConfirmStake(amount: int) returns (err: Option<Error>)
      modifies this
      ensures err == if amount <= 0 then Some(InvalidAmount) else if old(pending) < amount then Some(InsufficientBalance) else None
      ensures Row() == if err.Some? then old(Row())
                       else old(Row()).(pending := old(pending) - amount, staked := old(staked) + amount)
    {
      if amount <= 0 { return Some(InvalidAmount); }
      if pending < amount { return Some(InsufficientBalance); }
      pending := pending - amount;
      staked := staked + amount;
      return None;
    }

    method ReleaseHold(amount: int) returns (err: Option<Error>)
      modifies this
      ensures err == if amount <= 0 then Some(InvalidAmount) else if old(pending) < amount then Some(InsufficientBalance) else None
      ensures Row() == if err.Some? then old(Row())
                       else old(Row()).(pending := old(pending) - amount, available := old(available) + amount)
    {
      if amount <= 0 { return Some(InvalidAmount); }
      if pending < amount { return Some(InsufficientBalance); }
      pending := pending - amount;
      available := available + amount;
      return None;
    }

    method CompleteUnstake(amount: int) returns (err: Option<Error>)
      modifies this
      ensures err == if amount <= 0 then Some(InvalidAmount) else if old(staked) < amount then Some(InsufficientBalance) else None
      ensures Row() == if err.Some? then old(Row())
                       else old(Row()).(staked := old(staked) - amount, available := old(available) + amount)
    {
      if amount <= 0 { return Some(InvalidAmount); }
      if staked < amount { return Some(InsufficientBalance); }
      staked := staked - amount;
      available := available + amount;
      return None;
    }

    method AddReward(amount: int) returns (err: Option<Error>)
      modifies this
      ensures err == if amount <= 0 then Some(InvalidAmount) else None
      ensures Row() == if err.Some? then old(Row()) else old(Row()).(available := old(available) + amount)
    {
      if amount <= 0 { return Some(InvalidAmount); }
      available := available + amount;
      return None;
    }
  }

  class Stake {
    const id: nat
    const account: Account
    const amount: int
    const key: string
    const createdAt: int
    var state: StakeState
    var providerRef: string
    var validator: string
    var failureReason: string
    var version: int

    ghost function Row(): StakeRow
      reads this
    {
      StakeRow(id, account, amount, state, providerRef, validator, key, failureReason, version, createdAt)
    }

    constructor FromRow(row: StakeRow)
      ensures Row() == row
    {
      id, account, amount, key, createdAt := row.id, row.account, row.amount, row.key, row.createdAt;
      state, providerRef, validator := row.state, row.providerRef, row.validator;
      failureReason, version := row.failureReason, row.version;
    }

    method Delegate(validator: string, providerRef: string) returns (err: Option<Error>)
      modifies this
      ensures err == if old(state) == Pending then None else Some(InvalidStateTransition)
      ensures Row() == if err.Some? then old(Row())
                       else old(Row()).(state := Delegating, validator := validator, providerRef := providerRef)
    {
      if state != Pending { return Some(InvalidStateTransition); }
      state := Delegating;
      this.validator := validator;
      this.providerRef := providerRef;
      return None;
    }

    method Activate() returns (err: Option<Error>)
      modifies this
      ensures err == if old(state) == Delegating then None else Some(InvalidStateTransition)
      ensures Row() == if err.Some? then old(Row()) else old(Row()).(state := Active)
    {
      if state != Delegating { return Some(InvalidStateTransition); }
      state := Active;
      return None;
    }

    method Unstake() returns (err: Option<Error>)
      modifies this
      ensures err == if old(state) == Active then None else Some(InvalidStateTransition)
      ensures Row() == if err.Some? then old(Row()) else old(Row()).(state := Unstaking)
    {
      if state != Active { return Some(InvalidStateTransition); }
      state := Unstaking;
      return None;
    }

    method Withdraw() returns (err: Option<Error>)
      modifies this
      ensures err == if old(state) == Unstaking then None else Some(InvalidStateTransition)
      ensures Row() == if err.Some? then old(Row()) else old(Row()).(state := Withdrawn)
    {
      if state != Unstaking { return Some(InvalidStateTransition); }
      state := Withdrawn;
      return None;
    }

    method Fail(reason: string) returns (err: Option<Error>)
      modifies this
      ensures err == if old(state) == Withdrawn || old(state) == Failed then Some(InvalidStateTransition) else None
      ensures Row() == if err.Some? then old(Row()) else old(Row()).(state := Failed, failureReason := reason)
    {
      if IsTerminal(state) { return Some(InvalidStateTransition); }
      state := Failed;
      failureReason := reason;
      return None;
    }
  }

  /** A new position in the PENDING state under a freshly drawn id. */
  method NewStake(id: nat, account: Account, amount: int, key: string, createdAt: int)
    returns (stake: Stake?, err: Option<Error>)
    ensures stake != null <==> amount > 0
    ensures err == if amount > 0 then None else Some(InvalidAmount)
    ensures stake != null ==> fresh(stake) && stake.Row() == StakeRow(id, account, amount, Pending, "", "", key, "", 1, createdAt)
  {
    if amount <= 0 { return null, Some(InvalidAmount); }
    stake := new Stake.FromRow(StakeRow(id, account, amount, Pending, "", "", key, "", 1, createdAt));
    err := None;
  }

  /** Rewards are immutable, so a reward is its row. */
  function NewReward(id: nat, stake: nat, account: Account, amount: int, cumulative: int, date: nat): Option<RewardRow> {
    if amount <= 0 then None else Some(RewardRow(id, stake, account, amount, cumulative, date))
  }
}
