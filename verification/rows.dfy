/** Values shared by every layer: table rows, errors, and the pure effect of each
    domain method on a row.  Amounts are integers in units of 10^-18. */
module Rows {

  datatype Option<+T> = None | Some(value: T)

  datatype Error =
    | InvalidAmount
    | InsufficientBalance
    | InvalidStateTransition
    | StakeNotFound
    | BalanceNotFound
    | OptimisticLock
    | MalformedAmount
    | ConstraintViolation
    | ScanError
    | DatabaseError
    | ProviderError

  /** Balances are unique per customer and asset, so the pair identifies the row. */
  datatype Account = Account(customer: string, asset: string)

  datatype BalanceRow = BalanceRow(available: int, pending: int, staked: int, version: int)

  datatype StakeState = Pending | Delegating | Active | Unstaking | Withdrawn | Failed

  datatype StakeRow = StakeRow(
    id: nat,
    account: Account,
    amount: int,
    state: StakeState,
    providerRef: string,
    validator: string,
    key: string,
    failureReason: string,
    version: int,
    createdAt: int)

  datatype RewardRow = RewardRow(
    id: nat,
    stake: nat,
    account: Account,
    amount: int,
    cumulative: int,
    date: nat)

  datatype ProviderStatus =
    | StatusPending
    | StatusActive
    | StatusUnstaking
    | StatusWithdrawn
    | StatusFailed

  // ---- Balance rows --------------------------------------------------------------

  /** The table's CHECK constraint. */
  predicate NonNegative(b: BalanceRow) {
    b.available >= 0 && b.pending >= 0 && b.staked >= 0
  }

  function Total(b: BalanceRow): int {
    b.available + b.pending + b.staked
  }

  /** One bucket operation, labelled with the hold, stake or reward it belongs to. */
  datatype Change =
    | Seeded(available: int)
    | Reset(available: int)
    | Held(id: nat, amount: int)
    | Confirmed(id: nat, amount: int)
    | Released(id: nat, amount: int)
    | Completed(id: nat, amount: int)
    | Credited(id: nat, amount: int)
    | Untouched

  /** The guard the domain method evaluates before it moves anything. */
  function Refusal(c: Change, b: BalanceRow): Option<Error> {
    match c
    case Held(_, amount) => Guard(amount, b.available)
    case Confirmed(_, amount) => Guard(amount, b.pending)
    case Released(_, amount) => Guard(amount, b.pending)
    case Completed(_, amount) => Guard(amount, b.staked)
    case Credited(_, amount) => if amount <= 0 then Some(InvalidAmount) else None
    case _ => None
  }

  function Guard(amount: int, source: int): Option<Error> {
    if amount <= 0 then Some(InvalidAmount)
    else if source < amount then Some(InsufficientBalance)
    else None
  }

  /** The buckets after an operation that was not refused. */
  function Move(c: Change, b: BalanceRow): BalanceRow {
    match c
    case Seeded(x) => BalanceRow(x, 0, 0, 0)
    case Reset(x) => b.(available := x)
    case Held(_, amount) => b.(available := b.available - amount, pending := b.pending + amount)
    case Confirmed(_, amount) => b.(pending := b.pending - amount, staked := b.staked + amount)
    case Released(_, amount) => b.(pending := b.pending - amount, available := b.available + amount)
    case Completed(_, amount) => b.(staked := b.staked - amount, available := b.available + amount)
    case Credited(_, amount) => b.(available := b.available + amount)
    case Untouched => b
  }

  /** The row a committed operation leaves: buckets moved and version raised by one. */
  function Apply(c: Change, b: BalanceRow): BalanceRow {
    var moved := Move(c, b);
    moved.(version := moved.version + 1)
  }

  /** A release undoes its hold, whatever the buckets were; only the version remembers. */
  lemma ReleaseUndoesHold(i: nat, amount: int, b: BalanceRow)
    ensures Apply(Released(i, amount), Apply(Held(i, amount), b)) == b.(version := b.version + 2)
  {
  }

  // ---- Stake rows ----------------------------------------------------------------

  predicate IsTerminal(state: StakeState) {
    state == Withdrawn || state == Failed
  }

  /** Edges of the lifecycle that the domain methods accept. */
  predicate Legal(from: StakeState, to: StakeState) {
    match to
    case Pending => false
    case Delegating => from == Pending
    case Active => from == Delegating
    case Unstaking => from == Active
    case Withdrawn => from == Unstaking
    case Failed => !IsTerminal(from)
  }

  function Delegated(st: StakeRow, validator: string, ref: string): StakeRow {
    st.(state := Delegating, validator := validator, providerRef := ref, version := st.version + 1)
  }

  function Moved(st: StakeRow, to: StakeState): StakeRow {
    st.(state := to, version := st.version + 1)
  }

  function MarkedFailed(st: StakeRow, reason: string): StakeRow {
    st.(state := Failed, failureReason := reason, version := st.version + 1)
  }

  /** The columns no UPDATE statement ever sets. */
  predicate SameIdentity(x: StakeRow, y: StakeRow) {
    && x.id == y.id
    && x.account == y.account
    && x.amount == y.amount
    && x.key == y.key
    && x.createdAt == y.createdAt
  }

  predicate Live(state: StakeState) {
    state == Delegating || state == Active || state == Unstaking
  }
}
