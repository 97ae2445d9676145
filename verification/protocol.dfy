/** The staking ledger as a state machine.  Every repository or provider call is one
    step; between two steps of one operation any other operation may step.  A run is
    any finite sequence of events. */
module Protocol {
  import opened Rows

  /** What the outside world answers to one call.  `Fault` is an error that left the
      tables as they were; `Found` names the row a key lookup returned. */
  datatype Answer =
    | Fine
    | Fault
    | Found(stake: nat)
    | Accepted(validator: string, ref: string)
    | Refused(reason: string)
    | Reported(status: ProviderStatus)

  datatype Reply = Position(row: StakeRow) | Failure(error: Error) | Nothing

  /** `amount` is `None` when the request's decimal string does not parse. */
  datatype Request = Request(account: Account, amount: Option<int>, key: string, createdAt: int)

  /** Program counters name the next call.  `seen` is the balance object in memory as it
      stood in the table when it was read or last written. */
  datatype CreatePc =
    | CheckKey
    | ReadForHold
    | WriteHold(seen: BalanceRow)
    | InsertStake(seen: BalanceRow)
    | CallStake(seen: BalanceRow)
    | MarkFailed(seen: BalanceRow, reason: string)
    | WriteRollback(seen: BalanceRow, marked: bool)
    | WriteDelegating(validator: string, ref: string)
    | CreateDone(reply: Reply)

  datatype UnstakePc =
    | ReadStake
    | CallUnstake(st: StakeRow)
    | WriteUnstaking(st: StakeRow)
    | UnstakeDone(reply: Reply)

  datatype SetPc =
    | ReadForSet
    | InsertBalance
    | WriteSet(seen: BalanceRow)
    | SetDone(reply: Reply)

  datatype ReconcilePc =
    | AskStatus
    | WriteStake(to: StakeState)
    | ReadForMove(to: StakeState)
    | WriteMove(to: StakeState, seen: BalanceRow)
    | ReconcileDone

  datatype CreditPc =
    | ReadTotal
    | InsertReward(cumulative: int)
    | ReadForCredit
    | WriteCredit(seen: BalanceRow)
    | CreditDone

  /** One operation in flight (or finished).  A stake listed by a poller pass becomes a
      `Reconcile` holding the listed snapshot; a reward entry becomes a `Credit`. */
  datatype Op =
    | Create(req: Request, cpc: CreatePc)
    | Unstake(stake: nat, upc: UnstakePc)
    | SetBalance(account: Account, available: int, spc: SetPc)
    | Reconcile(st: StakeRow, rpc: ReconcilePc)
    | Credit(stake: nat, account: Account, amount: int, date: nat, dpc: CreditPc)

  datatype Call =
    | CallCreate(req: Request)
    | CallUnstaking(stake: nat)
    | CallSetBalance(account: Account, available: int)
    | CallReconcile(stake: nat)
    | CallCredit(stake: nat, account: Account, amount: int, date: nat)

  datatype Event = Begin(call: Call) | Advance(op: nat, answer: Answer)

  datatype Tables = Tables(
    balances: map<Account, BalanceRow>,
    stakes: map<nat, StakeRow>,
    rewards: seq<RewardRow>)

  /** A committed write of a balance row. */
  datatype Entry = Entry(account: Account, change: Change)

  datatype ProviderCall = AskedToStake(stake: nat, asset: string, amount: int) | AskedToUnstake(ref: string)

  /** The tables, the operations, and the history the theorems speak of: the committed
      balance writes in commit order, the operation that moved each stake into each
      state, the calls made to the provider, and the stakes and rewards for which a
      call that had to follow was given up.

      An operation's index in `ops` is the id it draws: a `Create` gives it to its
      stake, a `Credit` to its reward. */
  datatype State = State(
    db: Tables,
    ops: seq<Op>,
    journal: seq<Entry>,
    winners: map<(nat, StakeState), nat>,
    asked: seq<ProviderCall>,
    skipped: set<nat>)

  function Empty(): State {
    State(Tables(map[], map[], []), [], [], map[], [], {})
  }

  /** What one call does to the tables or the provider. */
  datatype Effect =
    | NoEffect
    | WriteBalance(account: Account, change: Change, seen: BalanceRow)
    | AddStake(row: StakeRow)
    | MoveStake(row: StakeRow)
    | AddReward(reward: RewardRow)
    | Ask(call: ProviderCall)

  datatype Turn = Turn(op: Op, effect: Effect, skip: Option<nat>)

  // ---- SQL -----------------------------------------------------------------------

  /** UPDATE balances ... WHERE version = the one read, under the CHECK constraint. */
  predicate CanWrite(balances: map<Account, BalanceRow>, a: Account, c: Change, seen: BalanceRow) {
    && a in balances
    && balances[a].version == seen.version
    && NonNegative(Apply(c, seen))
  }

  /** The version test comes first: only a row about to be updated is held to the constraint. */
  function WriteError(balances: map<Account, BalanceRow>, a: Account, seen: BalanceRow, answer: Answer): Error {
    if answer != Fine then DatabaseError
    else if a in balances && balances[a].version == seen.version then ConstraintViolation
    else OptimisticLock
  }

  /** UPDATE stakes ... WHERE id = row.id AND version = row.version - 1. */
  predicate CanUpdate(stakes: map<nat, StakeRow>, row: StakeRow) {
    row.id in stakes && stakes[row.id].version == row.version - 1
  }

  function UpdateError(answer: Answer): Error {
    if answer == Fine then OptimisticLock else DatabaseError
  }

  /** The columns UPDATE stakes sets. */
  function Updated(stored: StakeRow, row: StakeRow): StakeRow {
    stored.(state := row.state, providerRef := row.providerRef, validator := row.validator,
    failureReason := row.failureReason, version := row.version)
  }

  /** UNIQUE(idempotency_key); the empty key is stored as NULL and never collides. */
  predicate KeyTaken(stakes: map<nat, StakeRow>, key: string) {
    key != "" && exists k :: k in stakes && stakes[k].key == key
  }

  /** UNIQUE(stake_id, reward_date). */
  predicate Rewarded(rewards: seq<RewardRow>, stake: nat, date: nat) {
    exists r :: 0 <= r < |rewards| && rewards[r].stake == stake && rewards[r].date == date
  }

  function TotalRewards(rewards: seq<RewardRow>, stake: nat): int {
    if rewards == [] then 0
    else
      var last := rewards[|rewards| - 1];
      TotalRewards(rewards[..|rewards| - 1], stake) + (if last.stake == stake then last.amount else 0)
  }

  // ---- CreateStake ---------------------------------------------------------------

  function Amount(req: Request): int {
    if req.amount.Some? then req.amount.value else 0
  }

  function PendingStake(i: nat, req: Request): StakeRow {
    StakeRow(i, req.account, Amount(req), Pending, "", "", req.key, "", 1, req.createdAt)
  }

  function ParseAmount(req: Request): CreatePc {
    if req.amount.None? then CreateDone(Failure(MalformedAmount))
    else if req.amount.value <= 0 then CreateDone(Failure(InvalidAmount))
    else ReadForHold
  }

  function StartCreate(req: Request): CreatePc {
    if req.key != "" then CheckKey else ParseAmount(req)
  }

  function NextCreate(db: Tables, i: nat, req: Request, pc: CreatePc, answer: Answer): (CreatePc, Effect, Option<nat>) {
    match pc
    case CheckKey =>
      (match answer
       case Found(k) =>
         if k in db.stakes && db.stakes[k].key == req.key then (CreateDone(Position(db.stakes[k])), NoEffect, None)
         else (pc, NoEffect, None)
       case Fine => (if KeyTaken(db.stakes, req.key) then pc else ParseAmount(req), NoEffect, None)
       case _ => (CreateDone(Failure(DatabaseError)), NoEffect, None))
    case ReadForHold =>
      if answer != Fine then (CreateDone(Failure(DatabaseError)), NoEffect, None)
      else if req.account !in db.balances then (CreateDone(Failure(BalanceNotFound)), NoEffect, None)
      else
        var seen := db.balances[req.account];
        var refusal := Refusal(Held(i, Amount(req)), seen);
        (if refusal.Some? then CreateDone(Failure(refusal.value)) else WriteHold(seen), NoEffect, None)
    case WriteHold(seen) =>
      var hold := Held(i, Amount(req));
      if answer == Fine && CanWrite(db.balances, req.account, hold, seen) then
        (InsertStake(Apply(hold, seen)), WriteBalance(req.account, hold, seen), None)
      else (CreateDone(Failure(WriteError(db.balances, req.account, seen, answer))), NoEffect, None)
    case InsertStake(seen) =>
      if answer == Fine && i !in db.stakes && !KeyTaken(db.stakes, req.key) then
        (CallStake(seen), AddStake(PendingStake(i, req)), None)
      else
        // The hold stays: the call returns without releasing it.
        (CreateDone(Failure(if answer == Fine then ConstraintViolation else DatabaseError)), NoEffect, Some(i))
    case CallStake(seen) =>
      var next := match answer
        case Accepted(validator, ref) => WriteDelegating(validator, ref)
        case Refused(reason) => MarkFailed(seen, reason)
        case _ => MarkFailed(seen, "");
      (next, Ask(AskedToStake(i, req.account.asset, Amount(req))), None)
    case MarkFailed(seen, reason) =>
      // A refused write is only logged; the release follows in any case.
      var row := MarkedFailed(PendingStake(i, req), reason);
      if answer == Fine && CanUpdate(db.stakes, row) then (WriteRollback(seen, true), MoveStake(row), None)
      else (WriteRollback(seen, false), NoEffect, None)
    case WriteRollback(seen, marked) =>
      var release := Released(i, Amount(req));
      var done := CreateDone(Failure(ProviderError));
      if answer == Fine && CanWrite(db.balances, req.account, release, seen) then
        (done, WriteBalance(req.account, release, seen), if marked then None else Some(i))
      else (done, NoEffect, if marked then Some(i) else None)
    case WriteDelegating(validator, ref) =>
      var row := Delegated(PendingStake(i, req), validator, ref);
      if answer == Fine && CanUpdate(db.stakes, row) then (CreateDone(Position(row)), MoveStake(row), None)
      else (CreateDone(Failure(UpdateError(answer))), NoEffect, None)
    case CreateDone(_) => (pc, NoEffect, None)
  }

  // ---- Unstake -------------------------------------------------------------------

  function NextUnstake(db: Tables, stake: nat, pc: UnstakePc, answer: Answer): (UnstakePc, Effect) {
    match pc
    case ReadStake =>
      if answer != Fine then (UnstakeDone(Failure(DatabaseError)), NoEffect)
      else if stake !in db.stakes then (UnstakeDone(Failure(StakeNotFound)), NoEffect)
      else
        var st := db.stakes[stake];
        if st.state == Unstaking || st.state == Withdrawn then (UnstakeDone(Position(st)), NoEffect)
        else if !Legal(st.state, Unstaking) then (UnstakeDone(Failure(InvalidStateTransition)), NoEffect)
        else (CallUnstake(st), NoEffect)
    case CallUnstake(st) =>
      (if answer == Fine then WriteUnstaking(st) else UnstakeDone(Failure(ProviderError)), Ask(AskedToUnstake(st.providerRef)))
    case WriteUnstaking(st) =>
      var row := Moved(st, Unstaking);
      if answer == Fine && CanUpdate(db.stakes, row) then (UnstakeDone(Position(row)), MoveStake(row))
      else (UnstakeDone(Failure(UpdateError(answer))), NoEffect)
    case UnstakeDone(_) => (pc, NoEffect)
  }

  // ---- CreateOrUpdateBalance -----------------------------------------------------

  const BLANK := BalanceRow(0, 0, 0, 0)

  function NextSet(db: Tables, a: Account, x: int, pc: SetPc, answer: Answer): (SetPc, Effect) {
    match pc
    case ReadForSet =>
      if answer != Fine then (SetDone(Failure(DatabaseError)), NoEffect)
      else if a !in db.balances then (InsertBalance, NoEffect)
      else (WriteSet(db.balances[a]), NoEffect)
    case InsertBalance =>
      // INSERT ... ON CONFLICT DO UPDATE: an existing row is overwritten, version and all.
      if answer == Fine && NonNegative(Apply(Seeded(x), BLANK)) then (SetDone(Nothing), WriteBalance(a, Seeded(x), BLANK))
      else (SetDone(Failure(if answer == Fine then ConstraintViolation else DatabaseError)), NoEffect)
    case WriteSet(seen) =>
      if answer == Fine && CanWrite(db.balances, a, Reset(x), seen) then (SetDone(Nothing), WriteBalance(a, Reset(x), seen))
      else (SetDone(Failure(WriteError(db.balances, a, seen, answer))), NoEffect)
    case SetDone(_) => (pc, NoEffect)
  }

  // ---- One stake of a reconcile pass ---------------------------------------------

  /** The pass that listed the snapshot decides which provider answers it acts on. */
  function Target(from: StakeState, status: ProviderStatus): Option<StakeState> {
    if from == Delegating && status == StatusActive then Some(Active)
    else if from == Delegating && status == StatusFailed then Some(Failed)
    else if from == Unstaking && status == StatusWithdrawn then Some(Withdrawn)
    else None
  }

  const PROVIDER_FAILURE := "provider reported failure"

  function Reconciled(st: StakeRow, to: StakeState): StakeRow {
    if to == Failed then MarkedFailed(st, PROVIDER_FAILURE) else Moved(st, to)
  }

  /** The bucket move that follows a won stake write. */
  function Settlement(st: StakeRow, to: StakeState): Change {
    if to == Active then Confirmed(st.id, st.amount)
    else if to == Failed then Released(st.id, st.amount)
    else Completed(st.id, st.amount)
  }

  /** `ReleaseHold` errors are discarded and the unchanged buckets are written back. */
  function Written(st: StakeRow, to: StakeState, seen: BalanceRow): Change {
    if Refusal(Settlement(st, to), seen).None? then Settlement(st, to) else Untouched
  }

  function NextReconcile(db: Tables, st: StakeRow, pc: ReconcilePc, answer: Answer): (ReconcilePc, Effect, Option<nat>) {
    match pc
    case AskStatus =>
      var to := if answer.Reported? then Target(st.state, answer.status) else None;
      (if to.Some? then WriteStake(to.value) else ReconcileDone, NoEffect, None)
    case WriteStake(to) =>
      var row := Reconciled(st, to);
      if answer == Fine && CanUpdate(db.stakes, row) then (ReadForMove(to), MoveStake(row), None)
      else (ReconcileDone, NoEffect, None)
    case ReadForMove(to) =>
      if answer == Fine && st.account in db.balances
         && (to == Failed || Refusal(Settlement(st, to), db.balances[st.account]).None?)
      then (WriteMove(to, db.balances[st.account]), NoEffect, None)
      else (ReconcileDone, NoEffect, Some(st.id))
    case WriteMove(to, seen) =>
      var change := Written(st, to, seen);
      if answer == Fine && CanWrite(db.balances, st.account, change, seen) then
        (ReconcileDone, WriteBalance(st.account, change, seen), if change == Untouched then Some(st.id) else None)
      else (ReconcileDone, NoEffect, Some(st.id))
    case ReconcileDone => (pc, NoEffect, None)
  }

  // ---- One reward entry of a fetch pass ------------------------------------------

  function NextCredit(db: Tables, i: nat, op: Op, answer: Answer): (CreditPc, Effect, Option<nat>)
    requires op.Credit?
  {
    match op.dpc
    case ReadTotal =>
      var total := if answer == Fine then TotalRewards(db.rewards, op.stake) else 0;
      (if op.amount <= 0 then CreditDone else InsertReward(total + op.amount), NoEffect, None)
    case InsertReward(cumulative) =>
      if answer == Fine && !Rewarded(db.rewards, op.stake, op.date) then
        (ReadForCredit, AddReward(RewardRow(i, op.stake, op.account, op.amount, cumulative, op.date)), None)
      else (CreditDone, NoEffect, None)
    case ReadForCredit =>
      if answer == Fine && op.account in db.balances then (WriteCredit(db.balances[op.account]), NoEffect, None)
      else (CreditDone, NoEffect, Some(i))
    case WriteCredit(seen) =>
      var change := Credited(i, op.amount);
      if answer == Fine && CanWrite(db.balances, op.account, change, seen) then
        (CreditDone, WriteBalance(op.account, change, seen), None)
      else (CreditDone, NoEffect, Some(i))
    case CreditDone => (CreditDone, NoEffect, None)
  }

  // ---- Steps and runs ------------------------------------------------------------

  /** The next call of operation `i`, given the tables it meets and the answer it gets. */
  function Decide(db: Tables, i: nat, op: Op, answer: Answer): Turn {
    match op
    case Create(req, pc) =>
      var (next, effect, skip) := NextCreate(db, i, req, pc, answer); Turn(op.(cpc := next), effect, skip)
    case Unstake(k, pc) =>
      var (next, effect) := NextUnstake(db, k, pc, answer); Turn(op.(upc := next), effect, None)
    case SetBalance(a, x, pc) =>
      var (next, effect) := NextSet(db, a, x, pc, answer); Turn(op.(spc := next), effect, None)
    case Reconcile(st, pc) =>
      var (next, effect, skip) := NextReconcile(db, st, pc, answer); Turn(op.(rpc := next), effect, skip)
    case Credit(_, _, _, _, _) =>
      var (next, effect, skip) := NextCredit(db, i, op, answer); Turn(op.(dpc := next), effect, skip)
  }

  function Affect(db: Tables, effect: Effect): Tables {
    match effect
    case WriteBalance(a, change, seen) => db.(balances := db.balances[a := Apply(change, seen)])
    case AddStake(row) => db.(stakes := db.stakes[row.id := row])
    case MoveStake(row) =>
      if row.id in db.stakes then db.(stakes := db.stakes[row.id := Updated(db.stakes[row.id], row)]) else db
    case AddReward(reward) => db.(rewards := db.rewards + [reward])
    case _ => db
  }

  function Commit(s: State, i: nat, turn: Turn): State
    requires i < |s.ops|
  {
    State(
      Affect(s.db, turn.effect),
      s.ops[i := turn.op],
      if turn.effect.WriteBalance? then s.journal + [Entry(turn.effect.account, turn.effect.change)] else s.journal,
      if turn.effect.MoveStake? then s.winners[(turn.effect.row.id, turn.effect.row.state) := i] else s.winners,
      if turn.effect.Ask? then s.asked + [turn.effect.call] else s.asked,
      if turn.skip.Some? then s.skipped + {turn.skip.value} else s.skipped)
  }

  predicate Listed(stakes: map<nat, StakeRow>, k: nat) {
    k in stakes && (stakes[k].state == Delegating || stakes[k].state == Unstaking)
  }

  function Start(db: Tables, call: Call): Option<Op> {
    match call
    case CallCreate(req) => Some(Create(req, StartCreate(req)))
    case CallUnstaking(k) => Some(Unstake(k, ReadStake))
    case CallSetBalance(a, x) => Some(SetBalance(a, x, ReadForSet))
    case CallReconcile(k) =>
      if Listed(db.stakes, k) then Some(Reconcile(db.stakes[k], AskStatus)) else None
    case CallCredit(k, a, amount, date) =>
      if k in db.stakes && db.stakes[k].account == a then Some(Credit(k, a, amount, date, ReadTotal)) else None
  }

  /** Events that make no sense in a state leave it unchanged, so every sequence of
      events is a run. */
  function Step(s: State, e: Event): State {
    match e
    case Begin(call) =>
      var op := Start(s.db, call);
      if op.Some? then s.(ops := s.ops + [op.value]) else s
    case Advance(i, answer) =>
      if i < |s.ops| then Commit(s, i, Decide(s.db, i, s.ops[i], answer)) else s
  }

  function RunFrom(s: State, events: seq<Event>): State {
    if events == [] then s
    else Step(RunFrom(s, events[..|events| - 1]), events[|events| - 1])
  }

  function Run(events: seq<Event>): State {
    RunFrom(Empty(), events)
  }

  predicate Finished(op: Op) {
    match op
    case Create(_, pc) => pc.CreateDone?
    case Unstake(_, pc) => pc.UnstakeDone?
    case SetBalance(_, _, pc) => pc.SetDone?
    case Reconcile(_, pc) => pc.ReconcileDone?
    case Credit(_, _, _, _, pc) => pc.CreditDone?
  }

  predicate Quiescent(s: State) {
    forall i :: 0 <= i < |s.ops| ==> Finished(s.ops[i])
  }

  /** The one step that breaks optimistic locking: an upsert that finds a row. */
  predicate Overwrites(s: State, e: Event) {
    && e.Advance?
    && e.op < |s.ops|
    && var effect := Decide(s.db, e.op, s.ops[e.op], e.answer).effect;
       effect.WriteBalance? && effect.change.Seeded? && effect.account in s.db.balances
  }

  predicate NoOverwriteFrom(s: State, events: seq<Event>) {
    events == [] ||
    (var before := events[..|events| - 1];
     NoOverwriteFrom(s, before) && !Overwrites(RunFrom(s, before), events[|events| - 1]))
  }

  predicate NoOverwrite(events: seq<Event>) {
    NoOverwriteFrom(Empty(), events)
  }
}
