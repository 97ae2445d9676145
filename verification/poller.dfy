/** The reward poller, call by call.  Every listed stake and every reward entry is one
    operation of a run, carried to its end.  When the system is quiet, a pass does to the
    tables what its specification says. */
module Poller {
  import opened Rows
  import opened Protocol
  import opened Calls
  import opened Domain
  import opened Earnings
  import opened Sums
  import opened Repositories
  import opened Worlds
  import opened Services
  import opened Passes
  import opened Fetching
  import opened Polling
  import opened Settling

  /** Operations lo, ..., hi - 1 belong to this pass; only `me` has moved. */
  twostate predicate OnlyMine(w: World, lo: nat, hi: nat, me: nat)
    reads w
  {
    && lo <= me < hi <= |w.sys.ops| && hi <= |old(w.sys.ops)|
    && forall i :: lo <= i < hi && i != me ==> w.sys.ops[i] == old(w.sys.ops)[i]
  }

  // ---- Calls of one reconcile operation ------------------------------------------

  method AskStatusOf(w: World, lo: nat, hi: nat, me: nat, ref: string, ghost st: StakeRow) returns (answer: Answer)
    requires w.Valid() && lo <= me < hi <= |w.sys.ops| && w.sys.ops[me] == Reconcile(st, AskStatus) && ref == st.providerRef
    modifies w, w.balances`rows, w.stakes`rows, w.rewards`rows, w.provider`asked, w.tape
    ensures w.Valid() && old(w.trace) <= w.trace && OnlyMine(w, lo, hi, me)
    ensures var to := if answer.Reported? then Target(st.state, answer.status) else None;
            w.sys.ops[me] == Reconcile(st, if to.Some? then WriteStake(to.value) else ReconcileDone)
    ensures w.quiet ==> w.Db() == old(w.Db()) && answer == Reported(w.provider.script.statusBook(ref))
  {
    w.Interfere(lo, hi);
    answer := w.provider.GetStakeStatus(ref);
    w.TickReconcile(me, st, AskStatus, answer);
  }

  method StoreMove(w: World, lo: nat, hi: nat, me: nat, stake: Stake, ghost st: StakeRow, ghost to: StakeState) returns (err: Option<Error>)
    requires w.Valid() && lo <= me < hi <= |w.sys.ops| && w.sys.ops[me] == Reconcile(st, WriteStake(to))
    requires stake.Row() == Reconciled(st, to)
    modifies w, w.balances`rows, w.stakes`rows, w.rewards`rows, w.provider`asked, w.tape
    ensures w.Valid() && old(w.trace) <= w.trace && OnlyMine(w, lo, hi, me)
    ensures w.sys.ops[me] == Reconcile(st, if err.None? then ReadForMove(to) else ReconcileDone)
    ensures w.quiet && st.id in old(w.Db()).stakes && old(w.Db()).stakes[st.id] == st ==>
              err.None? && w.Db() == old(w.Db()).(stakes := old(w.Db()).stakes[st.id := Reconciled(st, to)])
  {
    w.Interfere(lo, hi);
    err := w.stakes.Update(stake);
    w.TickReconcile(me, st, WriteStake(to), Outcome(err));
  }

  method FetchForMove(w: World, lo: nat, hi: nat, me: nat, account: Account, ghost st: StakeRow, ghost to: StakeState)
    returns (balance: Balance?, err: Option<Error>)
    requires w.Valid() && lo <= me < hi <= |w.sys.ops| && w.sys.ops[me] == Reconcile(st, ReadForMove(to)) && st.account == account
    modifies w, w.balances`rows, w.stakes`rows, w.rewards`rows, w.provider`asked, w.tape
    ensures w.Valid() && old(w.trace) <= w.trace && OnlyMine(w, lo, hi, me)
    ensures err.None? ==> balance != null && fresh(balance) && balance.account == account && NonNegative(balance.Row())
    ensures w.sys.ops[me] == Reconcile(st,
              if err.None? && (to == Failed || Refusal(Settlement(st, to), balance.Row()).None?) then WriteMove(to, balance.Row())
              else ReconcileDone)
    ensures w.quiet ==> w.Db() == old(w.Db()) && (err.None? <==> account in old(w.Db()).balances)
    ensures w.quiet && err.None? ==> balance.Row() == old(w.Db()).balances[account]
  {
    w.Interfere(lo, hi);
    balance, err := w.balances.GetByCustomerAndAsset(account);
    w.TickReconcile(me, st, ReadForMove(to), Outcome(err));
  }

  method StoreSettled(w: World, lo: nat, hi: nat, me: nat, balance: Balance, ghost seen: BalanceRow, ghost st: StakeRow, ghost to: StakeState)
    returns (err: Option<Error>)
    requires w.Valid() && lo <= me < hi <= |w.sys.ops| && w.sys.ops[me] == Reconcile(st, WriteMove(to, seen))
    requires balance.account == st.account && balance.Row() == Apply(Written(st, to, seen), seen)
    modifies w, w.balances`rows, w.stakes`rows, w.rewards`rows, w.provider`asked, w.tape
    ensures w.Valid() && old(w.trace) <= w.trace && OnlyMine(w, lo, hi, me)
    ensures w.sys.ops[me] == Reconcile(st, ReconcileDone)
    ensures w.quiet && NonNegative(balance.Row()) && st.account in old(w.Db()).balances && old(w.Db()).balances[st.account] == seen ==>
              w.Db() == old(w.Db()).(balances := old(w.Db()).balances[st.account := balance.Row()])
  {
    w.Interfere(lo, hi);
    err := w.balances.Update(balance);
    w.TickReconcile(me, st, WriteMove(to, seen), Outcome(err));
  }

  // ---- One listed stake ----------------------------------------------------------

  /** Pending becomes staked; a refusal or a failed call is skipped for good. */
  method ConfirmOnBalance(w: World, lo: nat, hi: nat, me: nat, stake: Stake, ghost st: StakeRow)
    requires w.Valid() && lo <= me < hi <= |w.sys.ops| && w.sys.ops[me] == Reconcile(st, ReadForMove(Active))
    requires stake.account == st.account && stake.amount == st.amount
    modifies w, w.balances`rows, w.stakes`rows, w.rewards`rows, w.provider`asked, w.tape
    ensures w.Valid() && old(w.trace) <= w.trace && OnlyMine(w, lo, hi, me)
    ensures w.sys.ops[me] == Reconcile(st, ReconcileDone)
    ensures w.quiet ==> w.Db() == old(w.Db()).(balances := SettleBalance(old(w.Db()).balances, st, Active))
    ensures w.quiet && st.account in old(w.Db()).balances && 0 < st.amount <= old(w.Db()).balances[st.account].pending ==>
              var was := old(w.Db()).balances[st.account];
              st.account in w.Db().balances && w.Db().balances[st.account] == BalanceRow(was.available, was.pending - st.amount, was.staked + st.amount, was.version + 1)
  {
    var balance, err := FetchForMove(w, lo, hi, me, stake.account, st, Active);
    if err.Some? { return; }
    ghost var seen := balance.Row();
    err := balance.ConfirmStake(stake.amount);
    if err.Some? { return; }
    balance.version := balance.version + 1;
    err := StoreSettled(w, lo, hi, me, balance, seen, st, Active);
  }

  /** Pending becomes available; what `ReleaseHold` says is ignored. */
  method ReleaseOnBalance(w: World, lo: nat, hi: nat, me: nat, stake: Stake, ghost st: StakeRow)
    requires w.Valid() && lo <= me < hi <= |w.sys.ops| && w.sys.ops[me] == Reconcile(st, ReadForMove(Failed))
    requires stake.account == st.account && stake.amount == st.amount
    modifies w, w.balances`rows, w.stakes`rows, w.rewards`rows, w.provider`asked, w.tape
    ensures w.Valid() && old(w.trace) <= w.trace && OnlyMine(w, lo, hi, me)
    ensures w.sys.ops[me] == Reconcile(st, ReconcileDone)
    ensures w.quiet ==> w.Db() == old(w.Db()).(balances := SettleBalance(old(w.Db()).balances, st, Failed))
    ensures w.quiet && st.account in old(w.Db()).balances && 0 < st.amount <= old(w.Db()).balances[st.account].pending ==>
              var was := old(w.Db()).balances[st.account];
              st.account in w.Db().balances && w.Db().balances[st.account] == BalanceRow(was.available + st.amount, was.pending - st.amount, was.staked, was.version + 1)
  {
    var balance, err := FetchForMove(w, lo, hi, me, stake.account, st, Failed);
    if err.None? {
      ghost var seen := balance.Row();
      var _ := balance.ReleaseHold(stake.amount);
      balance.version := balance.version + 1;
      err := StoreSettled(w, lo, hi, me, balance, seen, st, Failed);
    }
  }

  /** Staked becomes available; a refusal or a failed call is skipped for good. */
  method CompleteOnBalance(w: World, lo: nat, hi: nat, me: nat, stake: Stake, ghost st: StakeRow)
    requires w.Valid() && lo <= me < hi <= |w.sys.ops| && w.sys.ops[me] == Reconcile(st, ReadForMove(Withdrawn))
    requires stake.account == st.account && stake.amount == st.amount
    modifies w, w.balances`rows, w.stakes`rows, w.rewards`rows, w.provider`asked, w.tape
    ensures w.Valid() && old(w.trace) <= w.trace && OnlyMine(w, lo, hi, me)
    ensures w.sys.ops[me] == Reconcile(st, ReconcileDone)
    ensures w.quiet ==> w.Db() == old(w.Db()).(balances := SettleBalance(old(w.Db()).balances, st, Withdrawn))
    ensures w.quiet && st.account in old(w.Db()).balances && 0 < st.amount <= old(w.Db()).balances[st.account].staked ==>
              var was := old(w.Db()).balances[st.account];
              st.account in w.Db().balances && w.Db().balances[st.account] == BalanceRow(was.available + st.amount, was.pending, was.staked - st.amount, was.version + 1)
  {
    var balance, err := FetchForMove(w, lo, hi, me, stake.account, st, Withdrawn);
    if err.Some? { return; }
    ghost var seen := balance.Row();
    err := balance.CompleteUnstake(stake.amount);
    if err.Some? { return; }
    balance.version := balance.version + 1;
    err := StoreSettled(w, lo, hi, me, balance, seen, st, Withdrawn);
  }

  /** The provider confirmed the delegation: activate the stake, then stake its amount. */
  method ConfirmDelegation(w: World, lo: nat, hi: nat, me: nat, stake: Stake, ghost st: StakeRow)
    requires w.Valid() && lo <= me < hi <= |w.sys.ops| && w.sys.ops[me] == Reconcile(st, WriteStake(Active))
    requires stake.Row() == st && st.state == Delegating
    modifies w, w.balances`rows, w.stakes`rows, w.rewards`rows, w.provider`asked, w.tape, stake
    ensures w.Valid() && old(w.trace) <= w.trace && OnlyMine(w, lo, hi, me)
    ensures w.sys.ops[me] == Reconcile(st, ReconcileDone)
    ensures w.quiet && st.id in old(w.Db()).stakes && old(w.Db()).stakes[st.id] == st ==>
              w.Db() == Settle(old(w.Db()), st, StatusActive)
  {
    var err := stake.Activate();
    assert err.None?;
    stake.version := stake.version + 1;
    err := StoreMove(w, lo, hi, me, stake, st, Active);
    if err.None? { ConfirmOnBalance(w, lo, hi, me, stake, st); }
  }

  /** The provider reported a failure: fail the stake, then release its hold. */
  method FailDelegation(w: World, lo: nat, hi: nat, me: nat, stake: Stake, ghost st: StakeRow)
    requires w.Valid() && lo <= me < hi <= |w.sys.ops| && w.sys.ops[me] == Reconcile(st, WriteStake(Failed))
    requires stake.Row() == st && st.state == Delegating
    modifies w, w.balances`rows, w.stakes`rows, w.rewards`rows, w.provider`asked, w.tape, stake
    ensures w.Valid() && old(w.trace) <= w.trace && OnlyMine(w, lo, hi, me)
    ensures w.sys.ops[me] == Reconcile(st, ReconcileDone)
    ensures w.quiet && st.id in old(w.Db()).stakes && old(w.Db()).stakes[st.id] == st ==>
              w.Db() == Settle(old(w.Db()), st, StatusFailed)
  {
    var _ := stake.Fail(PROVIDER_FAILURE);
    stake.version := stake.version + 1;
    var err := StoreMove(w, lo, hi, me, stake, st, Failed);
    if err.None? { ReleaseOnBalance(w, lo, hi, me, stake, st); }
  }

  /** The unbonding is over: withdraw the stake, then return its amount. */
  method CompleteWithdrawal(w: World, lo: nat, hi: nat, me: nat, stake: Stake, ghost st: StakeRow)
    requires w.Valid() && lo <= me < hi <= |w.sys.ops| && w.sys.ops[me] == Reconcile(st, WriteStake(Withdrawn))
    requires stake.Row() == st && st.state == Unstaking
    modifies w, w.balances`rows, w.stakes`rows, w.rewards`rows, w.provider`asked, w.tape, stake
    ensures w.Valid() && old(w.trace) <= w.trace && OnlyMine(w, lo, hi, me)
    ensures w.sys.ops[me] == Reconcile(st, ReconcileDone)
    ensures w.quiet && st.id in old(w.Db()).stakes && old(w.Db()).stakes[st.id] == st ==>
              w.Db() == Settle(old(w.Db()), st, StatusWithdrawn)
  {
    var err := stake.Withdraw();
    assert err.None?;
    stake.version := stake.version + 1;
    err := StoreMove(w, lo, hi, me, stake, st, Withdrawn);
    if err.None? { CompleteOnBalance(w, lo, hi, me, stake, st); }
  }

  method CheckDelegating(w: World, lo: nat, hi: nat, me: nat, stake: Stake, ghost st: StakeRow)
    requires w.Valid() && lo <= me < hi <= |w.sys.ops| && w.sys.ops[me] == Reconcile(st, AskStatus)
    requires stake.Row() == st && st.state == Delegating
    modifies w, w.balances`rows, w.stakes`rows, w.rewards`rows, w.provider`asked, w.tape, stake
    ensures w.Valid() && old(w.trace) <= w.trace && OnlyMine(w, lo, hi, me)
    ensures w.sys.ops[me] == Reconcile(st, ReconcileDone)
    ensures w.quiet && st.id in old(w.Db()).stakes && old(w.Db()).stakes[st.id] == st ==>
              w.Db() == Settle(old(w.Db()), st, w.provider.script.statusBook(st.providerRef))
    ensures w.quiet && w.provider.script.statusBook(st.providerRef) != StatusActive && w.provider.script.statusBook(st.providerRef) != StatusFailed ==> w.Db() == old(w.Db())
  {
    var answer := AskStatusOf(w, lo, hi, me, stake.providerRef, st);
    if answer == Reported(StatusActive) {
      ConfirmDelegation(w, lo, hi, me, stake, st);
    } else if answer == Reported(StatusFailed) {
      FailDelegation(w, lo, hi, me, stake, st);
    }
  }

  method CheckUnstaking(w: World, lo: nat, hi: nat, me: nat, stake: Stake, ghost st: StakeRow)
    requires w.Valid() && lo <= me < hi <= |w.sys.ops| && w.sys.ops[me] == Reconcile(st, AskStatus)
    requires stake.Row() == st && st.state == Unstaking
    modifies w, w.balances`rows, w.stakes`rows, w.rewards`rows, w.provider`asked, w.tape, stake
    ensures w.Valid() && old(w.trace) <= w.trace && OnlyMine(w, lo, hi, me)
    ensures w.sys.ops[me] == Reconcile(st, ReconcileDone)
    ensures w.quiet && st.id in old(w.Db()).stakes && old(w.Db()).stakes[st.id] == st ==>
              w.Db() == Settle(old(w.Db()), st, w.provider.script.statusBook(st.providerRef))
    ensures w.quiet && w.provider.script.statusBook(st.providerRef) != StatusWithdrawn ==> w.Db() == old(w.Db())
  {
    var answer := AskStatusOf(w, lo, hi, me, stake.providerRef, st);
    if answer == Reported(StatusWithdrawn) {
      CompleteWithdrawal(w, lo, hi, me, stake, st);
    }
  }

  // ---- Reconcile passes ----------------------------------------------------------

  /** Operations lo, lo + 1, ... are those of the listed snapshots; the first n are done. */
  ghost predicate Ran(ops: seq<Op>, lo: nat, sts: seq<StakeRow>, n: nat) {
    && lo + |sts| <= |ops|
    && forall i :: lo <= i < lo + |sts| ==> ops[i] == Reconcile(sts[i - lo], if i - lo < n then ReconcileDone else AskStatus)
  }

  /** The listed stakes enter the run with the snapshots just read. */
  method BeginAll(w: World, stakes: seq<Stake>, ghost sts: seq<StakeRow>)
    requires w.Valid() && |sts| == |stakes|
    requires forall p :: 0 <= p < |stakes| ==>
      stakes[p].Row() == sts[p] && Listed(w.Db().stakes, sts[p].id) && w.Db().stakes[sts[p].id] == sts[p]
    modifies w
    ensures w.Valid() && old(w.trace) <= w.trace && w.Db() == old(w.Db())
    ensures |w.sys.ops| == old(|w.sys.ops|) + |sts| && Ran(w.sys.ops, old(|w.sys.ops|), sts, 0)
  {
    for n := 0 to |stakes|
      invariant w.Valid() && old(w.trace) <= w.trace && w.Db() == old(w.Db())
      invariant |w.sys.ops| == old(|w.sys.ops|) + n && Ran(w.sys.ops, old(|w.sys.ops|), sts[..n], 0)
    {
      var _ := w.Begin(CallReconcile(stakes[n].id), Reconcile(sts[n], AskStatus));
    }
  }

  /** A batch as listed: distinct objects of distinct stakes, with their snapshots. */
  ghost predicate Batch(stakes: seq<Stake>, sts: seq<StakeRow>, state: StakeState)
    reads stakes
  {
    && |sts| == |stakes|
    && (forall p :: 0 <= p < |stakes| ==> stakes[p].Row() == sts[p] && sts[p].state == state)
    && (forall p, q :: 0 <= p < q < |stakes| ==> stakes[p] != stakes[q] && sts[p].id != sts[q].id)
  }

  /** The stored rows are still the listed ones from the n-th on. */
  ghost predicate Current(rows: map<nat, StakeRow>, sts: seq<StakeRow>, n: nat) {
    forall p :: n <= p < |sts| ==> sts[p].id in rows && rows[sts[p].id] == sts[p]
  }

  /** Lists up to 100 of the oldest stakes in the state. */
  method ListBatch(w: World, state: StakeState) returns (ids: seq<nat>, stakes: seq<Stake>, ghost sts: seq<StakeRow>, lo: nat)
    requires w.Valid() && (state == Delegating || state == Unstaking)
    modifies w, w.balances`rows, w.stakes`rows, w.rewards`rows, w.provider`asked, w.tape
    ensures w.Valid() && old(w.trace) <= w.trace && Ran(w.sys.ops, lo, sts, 0)
    ensures Batch(stakes, sts, state) && forall p :: 0 <= p < |stakes| ==> fresh(stakes[p])
    ensures |ids| == |sts| && forall p :: 0 <= p < |sts| ==> sts[p].id == ids[p]
    ensures Current(w.Db().stakes, sts, 0)
    ensures w.quiet ==> w.Db() == old(w.Db()) && IsListing(w.Db().stakes, state, 100, ids) && sts == RowsOf(w.Db().stakes, ids)
  {
    w.Interfere(0, 0);
    var err;
    ids, stakes, err := w.stakes.ListByState(state, 100);
    sts := RowsOf(w.Db().stakes, ids);
    lo := |w.sys.ops|;
    BeginAll(w, stakes, sts);
  }

  /** The n-th stake of the batch. */
  method CheckDelegatingAt(w: World, stakes: seq<Stake>, ghost sts: seq<StakeRow>, lo: nat, n: nat)
    requires w.Valid() && n < |stakes| == |sts| && Ran(w.sys.ops, lo, sts, n) && stakes[n].Row() == sts[n] && sts[n].state == Delegating
    requires DistinctIds(sts)
    modifies w, w.balances`rows, w.stakes`rows, w.rewards`rows, w.provider`asked, w.tape, stakes[n]
    ensures w.Valid() && old(w.trace) <= w.trace && Ran(w.sys.ops, lo, sts, n + 1)
    ensures w.quiet && Current(old(w.Db()).stakes, sts, n) ==>
              w.Db() == Settle(old(w.Db()), sts[n], w.provider.script.statusBook(sts[n].providerRef)) && Current(w.Db().stakes, sts, n + 1)
  {
    CheckDelegating(w, lo, lo + |stakes|, lo + n, stakes[n], sts[n]);
  }

  method CheckAllDelegating(w: World, stakes: seq<Stake>, ghost sts: seq<StakeRow>, lo: nat)
    requires w.Valid() && Batch(stakes, sts, Delegating) && Ran(w.sys.ops, lo, sts, 0)
    modifies w, w.balances`rows, w.stakes`rows, w.rewards`rows, w.provider`asked, w.tape, stakes
    ensures w.Valid() && old(w.trace) <= w.trace && Ran(w.sys.ops, lo, sts, |sts|)
    ensures w.quiet && Current(old(w.Db()).stakes, sts, 0) ==> w.Db() == SettleAll(old(w.Db()), sts, w.provider.script.statusBook)
  {
    ghost var db, calm := w.Db(), w.quiet && Current(w.Db().stakes, sts, 0);
    for n := 0 to |stakes|
      invariant w.Valid() && old(w.trace) <= w.trace && Ran(w.sys.ops, lo, sts, n)
      invariant forall p :: n <= p < |sts| ==> stakes[p].Row() == sts[p]
      invariant calm ==> w.Db() == SettleAll(db, sts[..n], w.provider.script.statusBook) && Current(w.Db().stakes, sts, n)
    {
      CheckDelegatingAt(w, stakes, sts, lo, n);
      SettleNext(db, sts, n, w.provider.script.statusBook);
    }
    assert sts[..|sts|] == sts;
  }

  /** The n-th stake of the batch. */
  method CheckUnstakingAt(w: World, stakes: seq<Stake>, ghost sts: seq<StakeRow>, lo: nat, n: nat)
    requires w.Valid() && n < |stakes| == |sts| && Ran(w.sys.ops, lo, sts, n) && stakes[n].Row() == sts[n] && sts[n].state == Unstaking
    requires DistinctIds(sts)
    modifies w, w.balances`rows, w.stakes`rows, w.rewards`rows, w.provider`asked, w.tape, stakes[n]
    ensures w.Valid() && old(w.trace) <= w.trace && Ran(w.sys.ops, lo, sts, n + 1)
    ensures w.quiet && Current(old(w.Db()).stakes, sts, n) ==>
              w.Db() == Settle(old(w.Db()), sts[n], w.provider.script.statusBook(sts[n].providerRef)) && Current(w.Db().stakes, sts, n + 1)
  {
    CheckUnstaking(w, lo, lo + |stakes|, lo + n, stakes[n], sts[n]);
  }

  method CheckAllUnstaking(w: World, stakes: seq<Stake>, ghost sts: seq<StakeRow>, lo: nat)
    requires w.Valid() && Batch(stakes, sts, Unstaking) && Ran(w.sys.ops, lo, sts, 0)
    modifies w, w.balances`rows, w.stakes`rows, w.rewards`rows, w.provider`asked, w.tape, stakes
    ensures w.Valid() && old(w.trace) <= w.trace && Ran(w.sys.ops, lo, sts, |sts|)
    ensures w.quiet && Current(old(w.Db()).stakes, sts, 0) ==> w.Db() == SettleAll(old(w.Db()), sts, w.provider.script.statusBook)
  {
    ghost var db, calm := w.Db(), w.quiet && Current(w.Db().stakes, sts, 0);
    for n := 0 to |stakes|
      invariant w.Valid() && old(w.trace) <= w.trace && Ran(w.sys.ops, lo, sts, n)
      invariant forall p :: n <= p < |sts| ==> stakes[p].Row() == sts[p]
      invariant calm ==> w.Db() == SettleAll(db, sts[..n], w.provider.script.statusBook) && Current(w.Db().stakes, sts, n)
    {
      CheckUnstakingAt(w, stakes, sts, lo, n);
      SettleNext(db, sts, n, w.provider.script.statusBook);
    }
    assert sts[..|sts|] == sts;
  }

  /** Checks the DELEGATING stakes and settles those the provider has decided: each listed
      stake is one finished operation of the run; a quiet pass is the specified one. */
  method ReconcileDelegating(w: World) returns (ids: seq<nat>, lo: nat)
    requires w.Valid()
    modifies w, w.balances`rows, w.stakes`rows, w.rewards`rows, w.provider`asked, w.tape
    ensures w.Valid() && old(w.trace) <= w.trace && lo + |ids| <= |w.sys.ops|
    ensures forall i :: lo <= i < lo + |ids| ==>
              w.sys.ops[i].Reconcile? && w.sys.ops[i].st.id == ids[i - lo] && w.sys.ops[i].rpc == ReconcileDone
    ensures w.quiet ==> IsListing(old(w.Db()).stakes, Delegating, 100, ids)
                        && w.Db() == SettleAll(old(w.Db()), RowsOf(old(w.Db()).stakes, ids), w.provider.script.statusBook)
    ensures w.quiet ==> DelegationsSettled(old(w.Db()).stakes, w.Db().stakes, ids, w.provider.script.statusBook)
    ensures w.quiet && NoOverwrite(old(w.trace)) ==>
              DelegationsMoved(old(w.Db()), w.Db().balances, RowsOf(old(w.Db()).stakes, ids), w.provider.script.statusBook)
  {
    w.Reached();
    w.Identified();
    ghost var events, db := w.trace, w.Db();
    var stakes;
    ghost var sts;
    ids, stakes, sts, lo := ListBatch(w, Delegating);
    CheckAllDelegating(w, stakes, sts, lo);
    if w.quiet { DelegatingPassMeans(events, db, ids, w.provider.script.statusBook); }
  }

  /** Checks the UNSTAKING stakes and completes those that are withdrawn. */
  method ReconcileUnstaking(w: World) returns (ids: seq<nat>, lo: nat)
    requires w.Valid()
    modifies w, w.balances`rows, w.stakes`rows, w.rewards`rows, w.provider`asked, w.tape
    ensures w.Valid() && old(w.trace) <= w.trace && lo + |ids| <= |w.sys.ops|
    ensures forall i :: lo <= i < lo + |ids| ==>
              w.sys.ops[i].Reconcile? && w.sys.ops[i].st.id == ids[i - lo] && w.sys.ops[i].rpc == ReconcileDone
    ensures w.quiet ==> IsListing(old(w.Db()).stakes, Unstaking, 100, ids)
                        && w.Db() == SettleAll(old(w.Db()), RowsOf(old(w.Db()).stakes, ids), w.provider.script.statusBook)
    ensures w.quiet ==> WithdrawalsSettled(old(w.Db()).stakes, w.Db().stakes, ids, w.provider.script.statusBook)
    ensures w.quiet ==> WithdrawalsPaid(old(w.Db()), w.Db().balances, RowsOf(old(w.Db()).stakes, ids), w.provider.script.statusBook)
  {
    w.Reached();
    w.Identified();
    ghost var events, db := w.trace, w.Db();
    var stakes;
    ghost var sts;
    ids, stakes, sts, lo := ListBatch(w, Unstaking);
    CheckAllUnstaking(w, stakes, sts, lo);
    if w.quiet { UnstakingPassMeans(events, db, ids, w.provider.script.statusBook); }
  }

  // ---- One reward entry ----------------------------------------------------------

  method FetchTotal(w: World, me: nat, stakeId: nat, ghost op: Op) returns (cumulative: int)
    requires w.Valid() && me < |w.sys.ops| && w.sys.ops[me] == op && op.Credit? && op.dpc == ReadTotal && op.stake == stakeId
    modifies w, w.balances`rows, w.stakes`rows, w.rewards`rows, w.provider`asked, w.tape
    ensures w.Valid() && old(w.trace) <= w.trace && me < |w.sys.ops| && Kept(old(w.Db()).stakes, w.Db().stakes)
    ensures w.sys.ops[me] == op.(dpc := if op.amount <= 0 then CreditDone else InsertReward(cumulative + op.amount))
    ensures w.quiet ==> w.Db() == old(w.Db()) && |w.sys.ops| == old(|w.sys.ops|)
                        && cumulative == TotalRewards(old(w.Db()).rewards, op.stake)
  {
    w.Interfere(me, me + 1);
    var total, err := w.rewards.GetTotalByStakeID(stakeId);
    cumulative := if err.None? then total else 0;
    TotalIsSum(w.rewards.rows, stakeId);
    if err == Some(ScanError) { SumZero(EarnedBy(w.rewards.rows, stakeId), |w.rewards.rows|); }
    w.TickCredit(me, op, Outcome(err));
  }

  method StoreReward(w: World, me: nat, ghost op: Op, reward: RewardRow) returns (err: Option<Error>)
    requires w.Valid() && me < |w.sys.ops| && w.sys.ops[me] == op && op.Credit? && op.dpc == InsertReward(reward.cumulative)
    requires reward == RewardRow(me, op.stake, op.account, op.amount, reward.cumulative, op.date)
    modifies w, w.balances`rows, w.stakes`rows, w.rewards`rows, w.provider`asked, w.tape
    ensures w.Valid() && old(w.trace) <= w.trace && me < |w.sys.ops| && Kept(old(w.Db()).stakes, w.Db().stakes)
    ensures w.sys.ops[me] == op.(dpc := if err.None? then ReadForCredit else CreditDone)
    ensures w.quiet ==> |w.sys.ops| == old(|w.sys.ops|) && (err.None? <==> !Rewarded(old(w.Db()).rewards, op.stake, op.date))
    ensures w.quiet ==> w.Db() == if err.None? then old(w.Db()).(rewards := old(w.Db()).rewards + [reward]) else old(w.Db())
  {
    w.Interfere(me, me + 1);
    err := w.rewards.Create(reward);
    w.TickCredit(me, op, Outcome(err));
  }

  method FetchForCredit(w: World, me: nat, ghost op: Op, account: Account) returns (balance: Balance?, err: Option<Error>)
    requires w.Valid() && me < |w.sys.ops| && w.sys.ops[me] == op && op.Credit? && op.dpc == ReadForCredit && op.account == account
    modifies w, w.balances`rows, w.stakes`rows, w.rewards`rows, w.provider`asked, w.tape
    ensures w.Valid() && old(w.trace) <= w.trace && me < |w.sys.ops| && Kept(old(w.Db()).stakes, w.Db().stakes)
    ensures err.None? ==> balance != null && fresh(balance) && balance.account == account && NonNegative(balance.Row())
    ensures w.sys.ops[me] == op.(dpc := if err.None? then WriteCredit(balance.Row()) else CreditDone)
    ensures w.quiet ==> w.Db() == old(w.Db()) && |w.sys.ops| == old(|w.sys.ops|) && (err.None? <==> account in old(w.Db()).balances)
    ensures w.quiet && err.None? ==> balance.Row() == old(w.Db()).balances[account]
  {
    w.Interfere(me, me + 1);
    balance, err := w.balances.GetByCustomerAndAsset(account);
    w.TickCredit(me, op, Outcome(err));
  }

  method StoreCredit(w: World, me: nat, ghost op: Op, balance: Balance, ghost seen: BalanceRow) returns (err: Option<Error>)
    requires w.Valid() && me < |w.sys.ops| && w.sys.ops[me] == op && op.Credit? && op.dpc == WriteCredit(seen)
    requires balance.account == op.account && balance.Row() == Apply(Credited(me, op.amount), seen)
    modifies w, w.balances`rows, w.stakes`rows, w.rewards`rows, w.provider`asked, w.tape
    ensures w.Valid() && old(w.trace) <= w.trace && me < |w.sys.ops| && Kept(old(w.Db()).stakes, w.Db().stakes)
    ensures w.sys.ops[me] == op.(dpc := CreditDone)
    ensures w.quiet ==> |w.sys.ops| == old(|w.sys.ops|)
    ensures w.quiet && NonNegative(balance.Row()) && op.account in old(w.Db()).balances && old(w.Db()).balances[op.account] == seen ==>
              w.Db() == old(w.Db()).(balances := old(w.Db()).balances[op.account := balance.Row()])
  {
    w.Interfere(me, me + 1);
    err := w.balances.Update(balance);
    w.TickCredit(me, op, Outcome(err));
  }

  /** The amount of a recorded reward becomes available; a failed call is skipped for good. */
  method CreditBalanceOf(w: World, me: nat, ghost op: Op, account: Account, amount: int)
    requires w.Valid() && me < |w.sys.ops| && w.sys.ops[me] == op && op.Credit? && op.dpc == ReadForCredit
    requires op.account == account && op.amount == amount > 0
    modifies w, w.balances`rows, w.stakes`rows, w.rewards`rows, w.provider`asked, w.tape
    ensures w.Valid() && old(w.trace) <= w.trace && me < |w.sys.ops| && Kept(old(w.Db()).stakes, w.Db().stakes)
    ensures w.sys.ops[me] == op.(dpc := CreditDone)
    ensures w.quiet ==> |w.sys.ops| == old(|w.sys.ops|)
                        && w.Db() == old(w.Db()).(balances := CreditBalance(old(w.Db()).balances, account, me, amount))
  {
    var balance, err := FetchForCredit(w, me, op, account);
    if err.Some? { return; }
    ghost var seen := balance.Row();
    var _ := balance.AddReward(amount);
    balance.version := balance.version + 1;
    err := StoreCredit(w, me, op.(dpc := WriteCredit(seen)), balance, seen);
  }

  /** The entry enters the run as an operation of its own. */
  method BeginCredit(w: World, st: StakeRow, amount: int, date: nat) returns (me: nat, cumulative: int)
    requires w.Valid() && st.id in w.Db().stakes && w.Db().stakes[st.id].account == st.account
    modifies w, w.balances`rows, w.stakes`rows, w.rewards`rows, w.provider`asked, w.tape
    ensures w.Valid() && old(w.trace) <= w.trace && me < |w.sys.ops| && Kept(old(w.Db()).stakes, w.Db().stakes)
    ensures me == old(|w.sys.ops|)
    ensures w.sys.ops[me] == Credit(st.id, st.account, amount, date,
                                    if amount <= 0 then CreditDone else InsertReward(cumulative + amount))
    ensures w.quiet ==> w.Db() == old(w.Db()) && |w.sys.ops| == me + 1 && cumulative == TotalRewards(w.Db().rewards, st.id)
  {
    me := w.Begin(CallCredit(st.id, st.account, amount, date), Credit(st.id, st.account, amount, date, ReadTotal));
    cumulative := FetchTotal(w, me, st.id, Credit(st.id, st.account, amount, date, ReadTotal));
  }

  /** Inserts the reward; only the insert that succeeds goes on to the balance. */
  method StoreAndCredit(w: World, me: nat, ghost op: Op, reward: RewardRow)
    requires w.Valid() && me < |w.sys.ops| && w.sys.ops[me] == op && op.Credit? && op.dpc == InsertReward(reward.cumulative)
    requires reward == RewardRow(me, op.stake, op.account, op.amount, reward.cumulative, op.date) && reward.amount > 0
    modifies w, w.balances`rows, w.stakes`rows, w.rewards`rows, w.provider`asked, w.tape
    ensures w.Valid() && old(w.trace) <= w.trace && me < |w.sys.ops| && Kept(old(w.Db()).stakes, w.Db().stakes)
    ensures w.sys.ops[me] == op.(dpc := CreditDone)
    ensures w.quiet ==> |w.sys.ops| == old(|w.sys.ops|)
    ensures w.quiet ==> w.Db() == if Rewarded(old(w.Db()).rewards, reward.stake, reward.date) then old(w.Db())
                                  else old(w.Db()).(rewards := old(w.Db()).rewards + [reward],
                                       balances := CreditBalance(old(w.Db()).balances, reward.account, me, reward.amount))
  {
    var err := StoreReward(w, me, op, reward);
    if err.None? { CreditBalanceOf(w, me, op.(dpc := ReadForCredit), reward.account, reward.amount); }
  }

  /** Records one entry and credits it: one `Credit` operation, carried to its end.  A date
      that does not parse, an amount that is not positive and a date already recorded are
      skipped. */
  method RecordEntry(w: World, stake: Stake, entry: RewardEntry)
    requires w.Valid() && stake.id in w.Db().stakes && w.Db().stakes[stake.id].account == stake.account
    modifies w, w.balances`rows, w.stakes`rows, w.rewards`rows, w.provider`asked, w.tape
    ensures w.Valid() && old(w.trace) <= w.trace && Kept(old(w.Db()).stakes, w.Db().stakes)
    ensures entry.date.Some? ==>
              var me := old(|w.sys.ops|);
              me < |w.sys.ops| && w.sys.ops[me] == Credit(stake.id, stake.account, entry.amount, entry.date.value, CreditDone)
    ensures w.quiet ==> Fetch(w.Db(), |w.sys.ops|) == FetchEntry(old(Fetch(w.Db(), |w.sys.ops|)), stake.Row(), entry)
  {
    if entry.date.None? { return; }
    var date := entry.date.value;
    var me, cumulative := BeginCredit(w, StakeOf(stake), entry.amount, date);
    var reward := NewReward(me, stake.id, stake.account, entry.amount, cumulative + entry.amount, date);
    if reward.Some? {
      StoreAndCredit(w, me, Credit(stake.id, stake.account, entry.amount, date, InsertReward(cumulative + entry.amount)), reward.value);
    }
  }

  lemma FetchNext(f: Fetch, st: StakeRow, entries: seq<RewardEntry>, n: nat)
    requires n < |entries|
    ensures FetchEntries(f, st, entries[..n + 1]) == FetchEntry(FetchEntries(f, st, entries[..n]), st, entries[n])
  {
    assert entries[..n + 1][..n] == entries[..n];
  }

  lemma FetchNextStake(f: Fetch, sts: seq<StakeRow>, n: nat, book: string -> seq<RewardEntry>)
    requires n < |sts|
    ensures FetchAll(f, sts[..n + 1], book) == FetchEntries(FetchAll(f, sts[..n], book), sts[n], book(sts[n].providerRef))
  {
    assert sts[..n + 1][..n] == sts[..n];
  }

  method RecordEntries(w: World, stake: Stake, entries: seq<RewardEntry>)
    requires w.Valid() && stake.id in w.Db().stakes && w.Db().stakes[stake.id].account == stake.account
    modifies w, w.balances`rows, w.stakes`rows, w.rewards`rows, w.provider`asked, w.tape
    ensures w.Valid() && old(w.trace) <= w.trace && Kept(old(w.Db()).stakes, w.Db().stakes)
    ensures w.quiet ==> Fetch(w.Db(), |w.sys.ops|) == FetchEntries(old(Fetch(w.Db(), |w.sys.ops|)), stake.Row(), entries)
  {
    ghost var f := Fetch(w.Db(), |w.sys.ops|);
    for n := 0 to |entries|
      invariant w.Valid() && old(w.trace) <= w.trace && Kept(old(w.Db()).stakes, w.Db().stakes)
      invariant w.quiet ==> Fetch(w.Db(), |w.sys.ops|) == FetchEntries(f, stake.Row(), entries[..n])
    {
      RecordEntry(w, stake, entries[n]);
      FetchNext(f, stake.Row(), entries, n);
    }
    assert entries[..|entries|] == entries;
  }

  /** Polls one active stake. */
  method FetchFor(w: World, stake: Stake)
    requires w.Valid() && stake.id in w.Db().stakes && w.Db().stakes[stake.id].account == stake.account
    modifies w, w.balances`rows, w.stakes`rows, w.rewards`rows, w.provider`asked, w.tape
    ensures w.Valid() && old(w.trace) <= w.trace && Kept(old(w.Db()).stakes, w.Db().stakes)
    ensures w.quiet ==> Fetch(w.Db(), |w.sys.ops|)
                        == FetchEntries(old(Fetch(w.Db(), |w.sys.ops|)), stake.Row(), w.provider.script.rewardBook(stake.providerRef))
  {
    w.Interfere(0, 0);
    var entries, err := w.provider.GetRewards(stake.providerRef);
    if err.None? { RecordEntries(w, stake, entries); }
  }

  method FetchForAll(w: World, stakes: seq<Stake>, ghost sts: seq<StakeRow>)
    requires w.Valid() && |sts| == |stakes|
    requires forall p :: 0 <= p < |stakes| ==>
               stakes[p].Row() == sts[p] && sts[p].id in w.Db().stakes && w.Db().stakes[sts[p].id].account == sts[p].account
    modifies w, w.balances`rows, w.stakes`rows, w.rewards`rows, w.provider`asked, w.tape
    ensures w.Valid() && old(w.trace) <= w.trace
    ensures w.quiet ==> Fetch(w.Db(), |w.sys.ops|) == FetchAll(old(Fetch(w.Db(), |w.sys.ops|)), sts, w.provider.script.rewardBook)
  {
    ghost var f := Fetch(w.Db(), |w.sys.ops|);
    for n := 0 to |stakes|
      invariant w.Valid() && old(w.trace) <= w.trace && Kept(old(w.Db()).stakes, w.Db().stakes)
      invariant w.quiet ==> Fetch(w.Db(), |w.sys.ops|) == FetchAll(f, sts[..n], w.provider.script.rewardBook)
    {
      FetchFor(w, stakes[n]);
      FetchNextStake(f, sts, n, w.provider.script.rewardBook);
    }
    assert sts[..|sts|] == sts;
  }

  /** Polls the rewards of up to 100 active stakes, oldest first. */
  method FetchRewards(w: World) returns (ids: seq<nat>)
    requires w.Valid()
    modifies w, w.balances`rows, w.stakes`rows, w.rewards`rows, w.provider`asked, w.tape
    ensures w.Valid() && old(w.trace) <= w.trace
    ensures w.quiet ==> IsListing(old(w.Db()).stakes, Active, 100, ids)
                        && Fetch(w.Db(), |w.sys.ops|) == FetchAll(old(Fetch(w.Db(), |w.sys.ops|)),
                             RowsOf(old(w.Db()).stakes, ids), w.provider.script.rewardBook)
  {
    w.Interfere(0, 0);
    var stakes, err;
    ids, stakes, err := w.stakes.ListByState(Active, 100);
    FetchForAll(w, stakes, RowsOf(w.Db().stakes, ids));
  }

  /** One tick of the poller.  A quiet tick settles the delegating stakes, then the unstaking
      ones, then records and credits rewards of the stakes active by then. */
  method Poll(w: World)
    requires w.Valid()
    modifies w, w.balances`rows, w.stakes`rows, w.rewards`rows, w.provider`asked, w.tape
    ensures w.Valid() && old(w.trace) <= w.trace
    ensures w.quiet ==> Polled(old(w.Db()), w.Db(), w.provider.script.statusBook, w.provider.script.rewardBook)
  {
    ghost var before := w.Db();
    var ids, lo := ReconcileDelegating(w);
    ghost var settled := w.Db();
    assert w.quiet ==> Pass(before, settled, Delegating, w.provider.script.statusBook);
    ids, lo := ReconcileUnstaking(w);
    ghost var withdrawn, n := w.Db(), |w.sys.ops|;
    assert w.quiet ==> Pass(settled, withdrawn, Unstaking, w.provider.script.statusBook);
    ids := FetchRewards(w);
    assert w.quiet ==> Collected(withdrawn, n, w.Db(), |w.sys.ops|, w.provider.script.rewardBook);
  }
}
