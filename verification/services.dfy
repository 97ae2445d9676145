/** The services, step by step against the repositories.  Between any two calls the rest
    of the system may run.  Each method drives its own operation of the protocol from its
    first call to its last, whatever the answers, and returns the reply recorded there; when
    the system is quiet it does to the tables what its sequential specification says. */
module Services {
  import opened Rows
  import opened Protocol
  import opened Calls
  import opened Domain
  import opened Repositories
  import opened Sequential
  import opened Worlds

  // ---- StakingService.CreateStake ------------------------------------------------

  /** Looks the key up; the operation goes on only if it is new. */
  method CheckKey(w: World, me: nat, req: Request) returns (done: bool, reply: Reply)
    requires w.Valid() && me < |w.sys.ops| && w.sys.ops[me] == Create(req, CreatePc.CheckKey) && req.key != ""
    modifies w, w.balances`rows, w.stakes`rows, w.rewards`rows, w.provider`asked, w.tape
    ensures w.Valid() && old(w.trace) <= w.trace && me < |w.sys.ops|
    ensures w.sys.ops[me] == Create(req, if done then CreateDone(reply) else ParseAmount(req))
    ensures w.quiet ==> w.Db() == old(w.Db()) && (done <==> KeyTaken(w.Db().stakes, req.key))
                        && (done ==> AnswersKey(w.Db(), req.key, reply))
    ensures w.quiet ==> w.provider.asked == old(w.provider.asked)
  {
    w.Interfere(me, me + 1);
    var found, existing, err := w.stakes.GetByIdempotencyKey(req.key);
    if err.Some? {
      w.TickCreate(me, req, CreatePc.CheckKey, Fault);
      return true, Failure(err.value);
    }
    if existing != null {
      w.TickCreate(me, req, CreatePc.CheckKey, Found(found.value));
      return true, Position(StakeOf(existing));
    }
    w.TickCreate(me, req, CreatePc.CheckKey, Fine);
    return false, Nothing;
  }

  function StakeOf(stake: Stake): (row: StakeRow)
    reads stake
    ensures row == stake.Row()
  {
    StakeRow(stake.id, stake.account, stake.amount, stake.state, stake.providerRef, stake.validator, stake.key,
             stake.failureReason, stake.version, stake.createdAt)
  }

  method FetchForHold(w: World, me: nat, req: Request) returns (balance: Balance?, err: Option<Error>)
    requires w.Valid() && me < |w.sys.ops| && w.sys.ops[me] == Create(req, ReadForHold)
    modifies w, w.balances`rows, w.stakes`rows, w.rewards`rows, w.provider`asked, w.tape
    ensures w.Valid() && old(w.trace) <= w.trace && me < |w.sys.ops|
    ensures err.Some? ==> w.sys.ops[me] == Create(req, CreateDone(Failure(err.value)))
    ensures err.None? ==> balance != null && fresh(balance) && balance.account == req.account && NonNegative(balance.Row())
    ensures err.None? ==> w.sys.ops[me] == Create(req,
                var refusal := Guard(Amount(req), balance.available);
                if refusal.Some? then CreateDone(Failure(refusal.value)) else WriteHold(balance.Row()))
    ensures w.quiet ==> w.Db() == old(w.Db()) && err == if req.account in w.Db().balances then None else Some(BalanceNotFound)
    ensures w.quiet && err.None? ==> balance.Row() == w.Db().balances[req.account]
    ensures w.quiet ==> w.provider.asked == old(w.provider.asked)
  {
    w.Interfere(me, me + 1);
    balance, err := w.balances.GetByCustomerAndAsset(req.account);
    w.TickCreate(me, req, ReadForHold, Outcome(err));
  }

  method StoreHold(w: World, me: nat, req: Request, balance: Balance, ghost seen: BalanceRow) returns (err: Option<Error>)
    requires w.Valid() && me < |w.sys.ops| && w.sys.ops[me] == Create(req, WriteHold(seen))
    requires balance.account == req.account && balance.Row() == Apply(Held(me, Amount(req)), seen)
    modifies w, w.balances`rows, w.stakes`rows, w.rewards`rows, w.provider`asked, w.tape
    ensures w.Valid() && old(w.trace) <= w.trace && me < |w.sys.ops|
    ensures w.sys.ops[me] == Create(req, if err.Some? then CreateDone(Failure(err.value)) else InsertStake(balance.Row()))
    ensures w.quiet && NonNegative(balance.Row()) && req.account in old(w.Db()).balances && old(w.Db()).balances[req.account] == seen ==>
              err.None? && w.Db() == old(w.Db()).(balances := old(w.Db()).balances[req.account := balance.Row()])
    ensures w.quiet ==> w.provider.asked == old(w.provider.asked)
  {
    w.Interfere(me, me + 1);
    err := w.balances.Update(balance);
    w.TickCreate(me, req, WriteHold(seen), Outcome(err));
  }

  /** Checks the balance and moves the amount from available to pending. */
  method HoldFunds(w: World, me: nat, req: Request, amount: int) returns (balance: Balance?, reply: Reply)
    requires w.Valid() && me < |w.sys.ops| && w.sys.ops[me] == Create(req, ReadForHold) && req.amount == Some(amount)
    modifies w, w.balances`rows, w.stakes`rows, w.rewards`rows, w.provider`asked, w.tape
    ensures w.Valid() && old(w.trace) <= w.trace && me < |w.sys.ops|
    ensures balance == null ==> w.sys.ops[me] == Create(req, CreateDone(reply))
    ensures balance != null ==> fresh(balance) && balance.account == req.account
                                && Guard(amount, balance.pending).None? && NonNegative(balance.Row())
                                && w.sys.ops[me] == Create(req, InsertStake(balance.Row()))
    ensures w.quiet && amount > 0 ==>
              var db := old(w.Db());
              if req.account !in db.balances then balance == null && reply == Failure(BalanceNotFound) && w.Db() == db
              else if db.balances[req.account].available < amount then balance == null && reply == Failure(InsufficientBalance) && w.Db() == db
              else balance != null && w.Db() == HoldFor(db, me, req) && balance.Row() == w.Db().balances[req.account]
    ensures w.quiet ==> w.provider.asked == old(w.provider.asked)
  {
    var err;
    balance, err := FetchForHold(w, me, req);
    if err.Some? { return null, Failure(err.value); }
    ghost var seen := balance.Row();
    err := balance.Hold(amount);
    if err.Some? { return null, Failure(err.value); }
    balance.version := balance.version + 1;
    err := StoreHold(w, me, req, balance, seen);
    if err.Some? { return null, Failure(err.value); }
    reply := Nothing;
  }

  method StoreFailed(w: World, me: nat, req: Request, stake: Stake, ghost seen: BalanceRow, reason: string) returns (err: Option<Error>)
    requires w.Valid() && me < |w.sys.ops| && w.sys.ops[me] == Create(req, MarkFailed(seen, reason))
    requires stake.Row() == MarkedFailed(PendingStake(me, req), reason)
    modifies w, w.balances`rows, w.stakes`rows, w.rewards`rows, w.provider`asked, w.tape
    ensures w.Valid() && old(w.trace) <= w.trace && me < |w.sys.ops|
    ensures w.sys.ops[me] == Create(req, WriteRollback(seen, err.None?))
    ensures w.quiet && me in old(w.Db()).stakes && old(w.Db()).stakes[me] == PendingStake(me, req) ==>
              w.Db() == old(w.Db()).(stakes := old(w.Db()).stakes[me := MarkedFailed(PendingStake(me, req), reason)])
    ensures w.quiet ==> w.provider.asked == old(w.provider.asked)
  {
    w.Interfere(me, me + 1);
    err := w.stakes.Update(stake);
    w.TickCreate(me, req, MarkFailed(seen, reason), Outcome(err));
  }

  method StoreRelease(w: World, me: nat, req: Request, balance: Balance, ghost seen: BalanceRow, ghost marked: bool) returns (err: Option<Error>)
    requires w.Valid() && me < |w.sys.ops| && w.sys.ops[me] == Create(req, WriteRollback(seen, marked))
    requires balance.account == req.account && balance.Row() == Apply(Released(me, Amount(req)), seen)
    modifies w, w.balances`rows, w.stakes`rows, w.rewards`rows, w.provider`asked, w.tape
    ensures w.Valid() && old(w.trace) <= w.trace && me < |w.sys.ops|
    ensures w.sys.ops[me] == Create(req, CreateDone(Failure(ProviderError)))
    ensures w.quiet && NonNegative(balance.Row()) && req.account in old(w.Db()).balances && old(w.Db()).balances[req.account] == seen ==>
              w.Db() == old(w.Db()).(balances := old(w.Db()).balances[req.account := balance.Row()])
    ensures w.quiet ==> w.provider.asked == old(w.provider.asked)
  {
    w.Interfere(me, me + 1);
    err := w.balances.Update(balance);
    w.TickCreate(me, req, WriteRollback(seen, marked), Outcome(err));
  }

  /** The PENDING stake is stored and its hold is the last write to the balance. */
  predicate OnHold(db: Tables, i: nat, req: Request, row: BalanceRow) {
    && i in db.stakes && db.stakes[i] == PendingStake(i, req)
    && req.account in db.balances && db.balances[req.account] == row
  }

  /** The provider failed: mark the stake as failed and release the hold, come what may. */
  method RollBack(w: World, me: nat, req: Request, stake: Stake, balance: Balance, reason: string)
    requires w.Valid() && me < |w.sys.ops| && w.sys.ops[me] == Create(req, MarkFailed(balance.Row(), reason))
    requires stake.Row() == PendingStake(me, req) && balance.account == req.account && req.amount == Some(stake.amount)
    requires Guard(stake.amount, balance.pending).None? && NonNegative(balance.Row())
    modifies w, w.balances`rows, w.stakes`rows, w.rewards`rows, w.provider`asked, w.tape, stake, balance
    ensures w.Valid() && old(w.trace) <= w.trace && me < |w.sys.ops|
    ensures w.sys.ops[me] == Create(req, CreateDone(Failure(ProviderError)))
    ensures w.quiet && OnHold(old(w.Db()), me, req, old(balance.Row())) ==>
              w.Db() == PlaceHeld(old(w.Db()), me, req, Refused(reason)).0
    ensures w.quiet ==> w.provider.asked == old(w.provider.asked)
  {
    ghost var seen := balance.Row();
    var _ := stake.Fail(reason);
    stake.version := stake.version + 1;
    var err := StoreFailed(w, me, req, stake, seen, reason);
    ghost var marked := err.None?;
    var _ := balance.ReleaseHold(stake.amount);
    balance.version := balance.version + 1;
    err := StoreRelease(w, me, req, balance, seen, marked);
  }

  method StoreDelegated(w: World, me: nat, req: Request, stake: Stake, ghost validator: string, ghost ref: string) returns (err: Option<Error>)
    requires w.Valid() && me < |w.sys.ops| && w.sys.ops[me] == Create(req, WriteDelegating(validator, ref))
    requires stake.Row() == Delegated(PendingStake(me, req), validator, ref)
    modifies w, w.balances`rows, w.stakes`rows, w.rewards`rows, w.provider`asked, w.tape
    ensures w.Valid() && old(w.trace) <= w.trace && me < |w.sys.ops|
    ensures w.sys.ops[me] == Create(req, CreateDone(if err.Some? then Failure(err.value) else Position(stake.Row())))
    ensures w.quiet && me in old(w.Db()).stakes && old(w.Db()).stakes[me] == PendingStake(me, req) ==>
              err.None? && w.Db() == old(w.Db()).(stakes := old(w.Db()).stakes[me := stake.Row()])
    ensures w.quiet ==> w.provider.asked == old(w.provider.asked)
  {
    w.Interfere(me, me + 1);
    err := w.stakes.Update(stake);
    w.TickCreate(me, req, WriteDelegating(validator, ref), Outcome(err));
  }

  /** The provider accepted: PENDING becomes DELEGATING. */
  method Delegate(w: World, me: nat, req: Request, stake: Stake, validator: string, ref: string) returns (reply: Reply)
    requires w.Valid() && me < |w.sys.ops| && w.sys.ops[me] == Create(req, WriteDelegating(validator, ref))
    requires stake.Row() == PendingStake(me, req)
    modifies w, w.balances`rows, w.stakes`rows, w.rewards`rows, w.provider`asked, w.tape, stake
    ensures w.Valid() && old(w.trace) <= w.trace && me < |w.sys.ops|
    ensures w.sys.ops[me] == Create(req, CreateDone(reply))
    ensures w.quiet && me in old(w.Db()).stakes && old(w.Db()).stakes[me] == PendingStake(me, req) ==>
              var row := Delegated(PendingStake(me, req), validator, ref);
              reply == Position(row) && w.Db() == old(w.Db()).(stakes := old(w.Db()).stakes[me := row])
    ensures w.quiet ==> w.provider.asked == old(w.provider.asked)
  {
    var err := stake.Delegate(validator, ref);
    assert err.None?;
    stake.version := stake.version + 1;
    err := StoreDelegated(w, me, req, stake, validator, ref);
    if err.Some? { return Failure(err.value); }
    return Position(StakeOf(stake));
  }

  method StoreStake(w: World, me: nat, req: Request, stake: Stake, ghost seen: BalanceRow) returns (err: Option<Error>)
    requires w.Valid() && me < |w.sys.ops| && w.sys.ops[me] == Create(req, InsertStake(seen))
    requires stake.Row() == PendingStake(me, req)
    modifies w, w.balances`rows, w.stakes`rows, w.rewards`rows, w.provider`asked, w.tape
    ensures w.Valid() && old(w.trace) <= w.trace && me < |w.sys.ops|
    ensures w.sys.ops[me] == Create(req, if err.Some? then CreateDone(Failure(err.value)) else CallStake(seen))
    ensures w.quiet && me !in old(w.Db()).stakes && !KeyTaken(old(w.Db()).stakes, req.key) ==>
              err.None? && w.Db() == old(w.Db()).(stakes := old(w.Db()).stakes[me := PendingStake(me, req)])
    ensures w.quiet ==> w.provider.asked == old(w.provider.asked)
  {
    w.Interfere(me, me + 1);
    err := w.stakes.Create(stake);
    w.TickCreate(me, req, InsertStake(seen), Outcome(err));
  }

  method AskToStake(w: World, me: nat, req: Request, ghost seen: BalanceRow) returns (answer: Answer)
    requires w.Valid() && me < |w.sys.ops| && w.sys.ops[me] == Create(req, CallStake(seen))
    modifies w, w.balances`rows, w.stakes`rows, w.rewards`rows, w.provider`asked, w.tape
    ensures w.Valid() && old(w.trace) <= w.trace && me < |w.sys.ops| && (answer.Accepted? || answer.Refused?)
    ensures w.sys.ops[me] == Create(req, if answer.Accepted? then WriteDelegating(answer.validator, answer.ref)
                                         else MarkFailed(seen, answer.reason))
    ensures w.quiet ==> w.Db() == old(w.Db()) && answer == StakeAnswer(w.provider.script.stakeBook(me))
    ensures w.quiet ==> w.provider.asked == old(w.provider.asked) + [AskedToStake(me, req.account.asset, Amount(req))]
  {
    w.Interfere(me, me + 1);
    answer := w.provider.Stake(req.account.asset, Amount(req), me);
    w.TickCreate(me, req, CallStake(seen), answer);
  }

  /** Persists the PENDING stake, calls the provider, and delegates or rolls back. */
  method PlaceStake(w: World, me: nat, req: Request, stake: Stake, balance: Balance) returns (reply: Reply)
    requires w.Valid() && me < |w.sys.ops| && w.sys.ops[me] == Create(req, InsertStake(balance.Row()))
    requires stake.Row() == PendingStake(me, req) && balance.account == req.account && req.amount == Some(stake.amount)
    requires Guard(stake.amount, balance.pending).None? && NonNegative(balance.Row())
    modifies w, w.balances`rows, w.stakes`rows, w.rewards`rows, w.provider`asked, w.tape, stake, balance
    ensures w.Valid() && old(w.trace) <= w.trace && me < |w.sys.ops|
    ensures w.sys.ops[me] == Create(req, CreateDone(reply))
    ensures var db := old(w.Db());
            w.quiet && me !in db.stakes && !KeyTaken(db.stakes, req.key)
            && req.account in db.balances && db.balances[req.account] == old(balance.Row()) ==>
              (w.Db(), reply) == PlaceHeld(db, me, req, StakeAnswer(w.provider.script.stakeBook(me)))
    ensures w.quiet && me !in old(w.Db()).stakes && !KeyTaken(old(w.Db()).stakes, req.key) ==>
              w.provider.asked == old(w.provider.asked) + [AskedToStake(me, req.account.asset, Amount(req))]
  {
    ghost var seen := balance.Row();
    if req.account in w.Db().balances { PlaceHeldStored(w.Db(), me, req, StakeAnswer(w.provider.script.stakeBook(me))); }
    var err := StoreStake(w, me, req, stake, seen);
    if err.Some? { return Failure(err.value); }
    var answer := AskToStake(w, me, req, seen);
    if answer.Refused? {
      RollBack(w, me, req, stake, balance, answer.reason);
      return Failure(ProviderError);
    }
    reply := Delegate(w, me, req, stake, answer.validator, answer.ref);
  }

  /** Starts the operation and answers it at once if the key is known. */
  method Admit(w: World, req: Request) returns (done: bool, reply: Reply, me: nat)
    requires w.Valid()
    modifies w, w.balances`rows, w.stakes`rows, w.rewards`rows, w.provider`asked, w.tape
    ensures w.Valid() && old(w.trace) <= w.trace
    ensures old(|w.sys.ops|) <= me < |w.sys.ops|
    ensures w.sys.ops[me] == Create(req, if done then CreateDone(reply) else ParseAmount(req))
    ensures w.quiet ==> w.Db() == old(w.Db()) && me !in w.Db().stakes && (done <==> KeyTaken(w.Db().stakes, req.key))
                        && (done ==> AnswersKey(w.Db(), req.key, reply))
    ensures w.quiet ==> w.provider.asked == old(w.provider.asked)
  {
    w.Interfere(0, 0);
    w.NextIdFree();
    me := w.Begin(CallCreate(req), Create(req, StartCreate(req)));
    if req.key == "" { return false, Nothing, me; }
    done, reply := CheckKey(w, me, req);
  }

  /** The whole call is one `Create` operation of a run, carried through to its reply; a quiet
      call is the sequential one. */
  method CreateStake(w: World, req: Request) returns (reply: Reply, me: nat)
    requires w.Valid()
    modifies w, w.balances`rows, w.stakes`rows, w.rewards`rows, w.provider`asked, w.tape
    ensures w.Valid() && old(w.trace) <= w.trace
    ensures old(|w.sys.ops|) <= me < |w.sys.ops| && w.sys.ops[me] == Create(req, CreateDone(reply))
    ensures w.quiet ==> Placed(old(w.Db()), w.Db(), me, req, StakeAnswer(w.provider.script.stakeBook(me)), reply)
    ensures w.quiet ==>
              var ordered := reply == Failure(ProviderError) || (reply.Position? && reply.row.id == me);
              w.provider.asked == old(w.provider.asked) + if ordered then [AskedToStake(me, req.account.asset, Amount(req))] else []
  {
    var done;
    done, reply, me := Admit(w, req);
    if done { return; }
    if req.amount.None? { return Failure(MalformedAmount), me; }
    var stake, err := NewStake(me, req.account, req.amount.value, req.key, req.createdAt);
    if stake == null { return Failure(err.value), me; }
    var balance;
    balance, reply := HoldFunds(w, me, req, req.amount.value);
    if balance == null { return; }
    reply := PlaceStake(w, me, req, stake, balance);
  }

  // ---- StakingService.Unstake ----------------------------------------------------

  method FetchStake(w: World, me: nat, stakeId: nat) returns (stake: Stake?, err: Option<Error>)
    requires w.Valid() && me < |w.sys.ops| && w.sys.ops[me] == Op.Unstake(stakeId, ReadStake)
    modifies w, w.balances`rows, w.stakes`rows, w.rewards`rows, w.provider`asked, w.tape
    ensures w.Valid() && old(w.trace) <= w.trace && me < |w.sys.ops|
    ensures err.Some? ==> w.sys.ops[me] == Op.Unstake(stakeId, UnstakeDone(Failure(err.value)))
    ensures err.None? ==> stake != null && fresh(stake) && w.sys.ops[me] == Op.Unstake(stakeId,
                if stake.state == Unstaking || stake.state == Withdrawn then UnstakeDone(Position(stake.Row()))
                else if !Legal(stake.state, Unstaking) then UnstakeDone(Failure(InvalidStateTransition))
                else CallUnstake(stake.Row()))
    ensures w.quiet ==> w.Db() == old(w.Db()) && err == if stakeId in w.Db().stakes then None else Some(StakeNotFound)
    ensures w.quiet && err.None? ==> stake.Row() == w.Db().stakes[stakeId] && stake.id == stakeId
    ensures w.quiet ==> w.provider.asked == old(w.provider.asked)
  {
    w.Interfere(me, me + 1);
    stake, err := w.stakes.GetByID(stakeId);
    w.TickUnstake(me, stakeId, ReadStake, Outcome(err));
  }

  method AskToUnstake(w: World, me: nat, stakeId: nat, ref: string, ghost st: StakeRow) returns (answer: Answer)
    requires w.Valid() && me < |w.sys.ops| && w.sys.ops[me] == Op.Unstake(stakeId, CallUnstake(st)) && ref == st.providerRef
    modifies w, w.balances`rows, w.stakes`rows, w.rewards`rows, w.provider`asked, w.tape
    ensures w.Valid() && old(w.trace) <= w.trace && me < |w.sys.ops|
    ensures w.sys.ops[me] == Op.Unstake(stakeId, if answer == Fine then WriteUnstaking(st) else UnstakeDone(Failure(ProviderError)))
    ensures w.quiet ==> w.Db() == old(w.Db()) && (answer == Fine <==> w.provider.script.unstakeBook(ref))
    ensures w.quiet ==> w.provider.asked == old(w.provider.asked) + [AskedToUnstake(ref)]
  {
    w.Interfere(me, me + 1);
    answer := w.provider.Unstake(ref);
    w.TickUnstake(me, stakeId, CallUnstake(st), answer);
  }

  method StoreUnstaking(w: World, me: nat, stakeId: nat, stake: Stake, ghost st: StakeRow) returns (err: Option<Error>)
    requires w.Valid() && me < |w.sys.ops| && w.sys.ops[me] == Op.Unstake(stakeId, WriteUnstaking(st))
    requires stake.Row() == Moved(st, Unstaking)
    modifies w, w.balances`rows, w.stakes`rows, w.rewards`rows, w.provider`asked, w.tape
    ensures w.Valid() && old(w.trace) <= w.trace && me < |w.sys.ops|
    ensures w.sys.ops[me] == Op.Unstake(stakeId, UnstakeDone(if err.Some? then Failure(err.value) else Position(stake.Row())))
    ensures w.quiet && st.id in old(w.Db()).stakes && old(w.Db()).stakes[st.id] == st ==>
              err.None? && w.Db() == old(w.Db()).(stakes := old(w.Db()).stakes[st.id := Moved(st, Unstaking)])
    ensures w.quiet ==> w.provider.asked == old(w.provider.asked)
  {
    w.Interfere(me, me + 1);
    err := w.stakes.Update(stake);
    w.TickUnstake(me, stakeId, WriteUnstaking(st), Outcome(err));
  }

  /** Calls the provider and stores the stake as UNSTAKING. */
  method Submit(w: World, me: nat, stakeId: nat, stake: Stake, ghost st: StakeRow) returns (reply: Reply)
    requires w.Valid() && me < |w.sys.ops| && w.sys.ops[me] == Op.Unstake(stakeId, CallUnstake(st))
    requires stake.Row() == st.(state := Unstaking)
    modifies w, w.balances`rows, w.stakes`rows, w.rewards`rows, w.provider`asked, w.tape, stake
    ensures w.Valid() && old(w.trace) <= w.trace && me < |w.sys.ops|
    ensures w.sys.ops[me] == Op.Unstake(stakeId, UnstakeDone(reply))
    ensures w.quiet && st.id in old(w.Db()).stakes && old(w.Db()).stakes[st.id] == st ==>
              (w.Db(), reply) == if w.provider.script.unstakeBook(st.providerRef)
                                 then (old(w.Db()).(stakes := old(w.Db()).stakes[st.id := Moved(st, Unstaking)]), Position(Moved(st, Unstaking)))
                                 else (old(w.Db()), Failure(ProviderError))
    ensures w.quiet ==> w.provider.asked == old(w.provider.asked) + [AskedToUnstake(st.providerRef)]
  {
    var answer := AskToUnstake(w, me, stakeId, stake.providerRef, st);
    if answer != Fine { return Failure(ProviderError); }
    stake.version := stake.version + 1;
    var err := StoreUnstaking(w, me, stakeId, stake, st);
    return if err.Some? then Failure(err.value) else Position(StakeOf(stake));
  }

  /** Goes on with the stake just read. */
  method UnstakeFetched(w: World, me: nat, stakeId: nat, stake: Stake) returns (reply: Reply)
    requires w.Valid() && me < |w.sys.ops| && w.sys.ops[me] == Op.Unstake(stakeId,
                if stake.state == Unstaking || stake.state == Withdrawn then UnstakeDone(Position(stake.Row()))
                else if !Legal(stake.state, Unstaking) then UnstakeDone(Failure(InvalidStateTransition))
                else CallUnstake(stake.Row()))
    modifies w, w.balances`rows, w.stakes`rows, w.rewards`rows, w.provider`asked, w.tape, stake
    ensures w.Valid() && old(w.trace) <= w.trace && me < |w.sys.ops|
    ensures w.sys.ops[me] == Op.Unstake(stakeId, UnstakeDone(reply))
    ensures w.quiet && stake.id == stakeId && stakeId in old(w.Db()).stakes && old(w.Db()).stakes[stakeId] == old(stake.Row()) ==>
              UnstakeMeans(old(w.Db()), w.Db(), stakeId, w.provider.script.unstakeBook, reply)
    ensures w.quiet ==> w.provider.asked == old(w.provider.asked)
                        + if old(stake.state) == Active then [AskedToUnstake(old(stake.providerRef))] else []
  {
    if stake.state == Unstaking || stake.state == Withdrawn { return Position(StakeOf(stake)); }
    ghost var st := stake.Row();
    var err := stake.Unstake();
    if err.Some? { return Failure(err.value); }
    reply := Submit(w, me, stakeId, stake, st);
  }

  /** Whether the scripted provider accepts to unstake the stake. */
  ghost function Accepts(w: World, db: Tables, k: nat): bool
    reads w.provider
  {
    k in db.stakes && w.provider.script.unstakeBook(db.stakes[k].providerRef)
  }

  /** The whole call is one `Unstake` operation of a run, carried through to its reply; a quiet
      call is the sequential one. */
  method Unstake(w: World, stakeId: nat) returns (reply: Reply, me: nat)
    requires w.Valid()
    modifies w, w.balances`rows, w.stakes`rows, w.rewards`rows, w.provider`asked, w.tape
    ensures w.Valid() && old(w.trace) <= w.trace
    ensures old(|w.sys.ops|) <= me < |w.sys.ops| && w.sys.ops[me] == Op.Unstake(stakeId, UnstakeDone(reply))
    ensures w.quiet ==> (w.Db(), reply) == Unstaked(old(w.Db()), stakeId, Accepts(w, old(w.Db()), stakeId))
    ensures w.quiet ==> UnstakeMeans(old(w.Db()), w.Db(), stakeId, w.provider.script.unstakeBook, reply)
    ensures var rows := old(w.Db()).stakes;
            w.quiet ==> w.provider.asked == old(w.provider.asked)
                        + if stakeId in rows && rows[stakeId].state == Active then [AskedToUnstake(rows[stakeId].providerRef)] else []
  {
    w.Interfere(0, 0);
    me := w.Begin(CallUnstaking(stakeId), Op.Unstake(stakeId, ReadStake));
    var stake, err := FetchStake(w, me, stakeId);
    if err.Some? { return Failure(err.value), me; }
    reply := UnstakeFetched(w, me, stakeId, stake);
  }

  // ---- BalanceService.CreateOrUpdateBalance --------------------------------------

  method FetchForSet(w: World, me: nat, account: Account, available: int) returns (balance: Balance?, err: Option<Error>)
    requires w.Valid() && me < |w.sys.ops| && w.sys.ops[me] == SetBalance(account, available, ReadForSet)
    modifies w, w.balances`rows, w.stakes`rows, w.rewards`rows, w.provider`asked, w.tape
    ensures w.Valid() && old(w.trace) <= w.trace && me < |w.sys.ops|
    ensures err.None? ==> balance != null && fresh(balance) && balance.account == account
    ensures w.sys.ops[me] == SetBalance(account, available,
                if err == Some(BalanceNotFound) then InsertBalance
                else if err.Some? then SetDone(Failure(err.value))
                else WriteSet(balance.Row()))
    ensures w.quiet ==> w.Db() == old(w.Db()) && err == if account in w.Db().balances then None else Some(BalanceNotFound)
    ensures w.quiet && err.None? ==> balance.Row() == w.Db().balances[account] && NonNegative(balance.Row())
  {
    w.Interfere(me, me + 1);
    balance, err := w.balances.GetByCustomerAndAsset(account);
    w.TickSet(me, account, available, ReadForSet, Outcome(err));
  }

  method InsertNew(w: World, me: nat, account: Account, available: int) returns (err: Option<Error>)
    requires w.Valid() && me < |w.sys.ops| && w.sys.ops[me] == SetBalance(account, available, InsertBalance)
    modifies w, w.balances`rows, w.stakes`rows, w.rewards`rows, w.provider`asked, w.tape
    ensures w.Valid() && old(w.trace) <= w.trace && me < |w.sys.ops|
    ensures w.sys.ops[me] == SetBalance(account, available, SetDone(if err.Some? then Failure(err.value) else Nothing))
    ensures w.quiet && account !in old(w.Db()).balances ==> (w.Db(), err) == Deposited(old(w.Db()), account, available)
  {
    var balance := new Balance(account);
    balance.available := available;
    w.Interfere(me, me + 1);
    err := w.balances.Upsert(balance);
    w.TickSet(me, account, available, InsertBalance, Outcome(err));
  }

  method StoreSet(w: World, me: nat, account: Account, available: int, balance: Balance, ghost seen: BalanceRow) returns (err: Option<Error>)
    requires w.Valid() && me < |w.sys.ops| && w.sys.ops[me] == SetBalance(account, available, WriteSet(seen))
    requires balance.account == account && balance.Row() == Apply(Reset(available), seen)
    modifies w, w.balances`rows, w.stakes`rows, w.rewards`rows, w.provider`asked, w.tape
    ensures w.Valid() && old(w.trace) <= w.trace && me < |w.sys.ops|
    ensures w.sys.ops[me] == SetBalance(account, available, SetDone(if err.Some? then Failure(err.value) else Nothing))
    ensures w.quiet && NonNegative(seen) && account in old(w.Db()).balances && old(w.Db()).balances[account] == seen ==>
              (w.Db(), err) == Deposited(old(w.Db()), account, available)
  {
    w.Interfere(me, me + 1);
    err := w.balances.Update(balance);
    w.TickSet(me, account, available, WriteSet(seen), Outcome(err));
  }

  /** The whole call is one `SetBalance` operation of a run, carried through to its reply; a
      quiet call is the sequential one. */
  method CreateOrUpdateBalance(w: World, account: Account, available: int) returns (err: Option<Error>, me: nat)
    requires w.Valid()
    modifies w, w.balances`rows, w.stakes`rows, w.rewards`rows, w.provider`asked, w.tape
    ensures w.Valid() && old(w.trace) <= w.trace
    ensures old(|w.sys.ops|) <= me < |w.sys.ops|
    ensures w.sys.ops[me] == SetBalance(account, available, SetDone(if err.Some? then Failure(err.value) else Nothing))
    ensures w.quiet ==> (w.Db(), err) == Deposited(old(w.Db()), account, available)
  {
    w.Interfere(0, 0);
    me := w.Begin(CallSetBalance(account, available), SetBalance(account, available, ReadForSet));
    var balance;
    balance, err := FetchForSet(w, me, account, available);
    if err == Some(BalanceNotFound) {
      err := InsertNew(w, me, account, available);
      return;
    }
    if err.Some? { return; }
    ghost var seen := balance.Row();
    balance.available := available;
    balance.version := balance.version + 1;
    err := StoreSet(w, me, account, available, balance, seen);
  }
}
