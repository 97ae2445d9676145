/** What a quiet reconcile pass does to each stake and to each bucket, status by status. */
module Settling {
  import opened Rows
  import opened Protocol
  import opened Lifecycle
  import opened Phases
  import opened Accounts
  import opened Safety
  import opened Sums
  import opened Repositories
  import opened Passes

  // ---- One listed stake ----------------------------------------------------------

  /** While the delegation is neither confirmed nor failed, or the unbonding not over, the
      stake and every bucket stay as they are. */
  lemma UndecidedStays(db: Tables, st: StakeRow, status: ProviderStatus)
    requires (st.state == Delegating && status != StatusActive && status != StatusFailed)
             || (st.state == Unstaking && status != StatusWithdrawn)
    ensures Settle(db, st, status) == db
  {
  }

  /** ACTIVE: the stake is activated; pending becomes staked if it covers the amount, and
      otherwise the balance is left alone. */
  lemma ActiveSettles(db: Tables, st: StakeRow)
    requires st.state == Delegating
    ensures var after := Settle(db, st, StatusActive);
            && after.stakes == db.stakes[st.id := st.(state := Active, version := st.version + 1)] && after.rewards == db.rewards
            && if st.account in db.balances && 0 < st.amount <= db.balances[st.account].pending then
                 var was := db.balances[st.account];
                 after.balances == db.balances[st.account :=
                   BalanceRow(was.available, was.pending - st.amount, was.staked + st.amount, was.version + 1)]
               else after.balances == db.balances
  {
  }

  /** FAILED: the stake is failed with the poller's reason; pending becomes available if it
      covers the amount, and otherwise only the version of the balance moves. */
  lemma FailedSettles(db: Tables, st: StakeRow)
    requires st.state == Delegating
    ensures var after := Settle(db, st, StatusFailed);
            && after.stakes == db.stakes[st.id := st.(state := Failed, failureReason := "provider reported failure", version := st.version + 1)]
            && after.rewards == db.rewards
            && if st.account !in db.balances then after.balances == db.balances
               else
                 var was, m := db.balances[st.account], if 0 < st.amount <= db.balances[st.account].pending then st.amount else 0;
                 after.balances == db.balances[st.account := BalanceRow(was.available + m, was.pending - m, was.staked, was.version + 1)]
  {
  }

  /** WITHDRAWN: the stake is withdrawn; staked becomes available if it covers the amount,
      and otherwise the balance is left alone. */
  lemma WithdrawnSettles(db: Tables, st: StakeRow)
    requires st.state == Unstaking
    ensures var after := Settle(db, st, StatusWithdrawn);
            && after.stakes == db.stakes[st.id := st.(state := Withdrawn, version := st.version + 1)] && after.rewards == db.rewards
            && if st.account in db.balances && 0 < st.amount <= db.balances[st.account].staked then
                 var was := db.balances[st.account];
                 after.balances == db.balances[st.account :=
                   BalanceRow(was.available + st.amount, was.pending, was.staked - st.amount, was.version + 1)]
               else after.balances == db.balances
  {
  }

  // ---- The stakes of a pass ------------------------------------------------------

  /** Every listed stake goes where its status takes it and the undecided ones stay; so do
      all stakes that were not listed. */
  lemma PassStakes(db: Tables, ids: seq<nat>, from: StakeState, book: string -> ProviderStatus)
    requires Keyed(db.stakes) && (from == Delegating || from == Unstaking)
    requires forall p :: 0 <= p < |ids| ==> ids[p] in db.stakes && db.stakes[ids[p]].state == from
    requires forall p, q :: 0 <= p < q < |ids| ==> ids[p] != ids[q]
    ensures var after := SettleAll(db, RowsOf(db.stakes, ids), book).stakes;
            && after.Keys == db.stakes.Keys
            && (forall k :: k in db.stakes && k !in ids ==> after[k] == db.stakes[k])
            && forall k :: k in db.stakes && k in ids ==>
                 var st, status := db.stakes[k], book(db.stakes[k].providerRef);
                 && (from == Delegating && status == StatusActive ==> after[k] == st.(state := Active, version := st.version + 1))
                 && (from == Delegating && status == StatusFailed ==>
                       after[k] == st.(state := Failed, failureReason := "provider reported failure", version := st.version + 1))
                 && (from == Delegating && status != StatusActive && status != StatusFailed ==> after[k] == st)
                 && (from == Unstaking && status == StatusWithdrawn ==> after[k] == st.(state := Withdrawn, version := st.version + 1))
                 && (from == Unstaking && status != StatusWithdrawn ==> after[k] == st)
  {
    PassAsReported(db, ids, from, book);
    forall k | k in ids ensures k in db.stakes && db.stakes[k].state == from {}
  }

  // ---- The buckets of a pass -----------------------------------------------------

  /** The p-th listed amount counts if it is the account's and has the status. */
  function Reports(sts: seq<StakeRow>, a: Account, status: ProviderStatus, book: string -> ProviderStatus): nat -> int {
    (p: nat) => if p < |sts| && sts[p].account == a && book(sts[p].providerRef) == status then sts[p].amount else 0
  }

  /** The amounts of an account's listed stakes that the provider reports in a status. */
  function AmountReported(sts: seq<StakeRow>, a: Account, status: ProviderStatus, book: string -> ProviderStatus): int {
    Sum(Reports(sts, a, status, book), |sts|)
  }

  predicate ListedIn(sts: seq<StakeRow>, state: StakeState) {
    forall p :: 0 <= p < |sts| ==> sts[p].state == state && sts[p].amount > 0
  }

  lemma ReportedNext(sts: seq<StakeRow>, a: Account, status: ProviderStatus, book: string -> ProviderStatus)
    requires sts != []
    ensures var last := sts[|sts| - 1];
            AmountReported(sts, a, status, book)
            == AmountReported(sts[..|sts| - 1], a, status, book)
               + (if last.account == a && book(last.providerRef) == status then last.amount else 0)
  {
    SumSame(Reports(sts, a, status, book), Reports(sts[..|sts| - 1], a, status, book), |sts| - 1);
  }

  /** Delegations: for each account, pending falls and staked rises by the listed amounts
      reported ACTIVE; pending falls and available rises by those reported FAILED. */
  lemma {:induction false} DelegatingBuckets(db: Tables, sts: seq<StakeRow>, a: Account, book: string -> ProviderStatus)
    requires ListedIn(sts, Delegating) && a in db.balances
    requires db.balances[a].pending >= AmountReported(sts, a, StatusActive, book) + AmountReported(sts, a, StatusFailed, book)
    ensures var after := SettleAll(db, sts, book).balances;
            && a in after
            && after[a].available == db.balances[a].available + AmountReported(sts, a, StatusFailed, book)
            && after[a].pending == db.balances[a].pending - AmountReported(sts, a, StatusActive, book) - AmountReported(sts, a, StatusFailed, book)
            && after[a].staked == db.balances[a].staked + AmountReported(sts, a, StatusActive, book)
  {
    if sts != [] {
      var before, last := sts[..|sts| - 1], sts[|sts| - 1];
      ReportedNext(sts, a, StatusActive, book);
      ReportedNext(sts, a, StatusFailed, book);
      DelegatingBuckets(db, before, a, book);
      var mid, status := SettleAll(db, before, book), book(last.providerRef);
      if status == StatusActive {
        ActiveSettles(mid, last);
      } else if status == StatusFailed {
        FailedSettles(mid, last);
      } else {
        UndecidedStays(mid, last, status);
      }
    }
  }

  /** Withdrawals: for each account whose staked covers them, staked falls and available
      rises by the listed amounts reported WITHDRAWN; pending is left alone. */
  lemma {:induction false} UnstakingBuckets(db: Tables, sts: seq<StakeRow>, a: Account, book: string -> ProviderStatus)
    requires ListedIn(sts, Unstaking) && a in db.balances
    requires db.balances[a].staked >= AmountReported(sts, a, StatusWithdrawn, book)
    ensures var after := SettleAll(db, sts, book).balances;
            && a in after
            && after[a].available == db.balances[a].available + AmountReported(sts, a, StatusWithdrawn, book)
            && after[a].pending == db.balances[a].pending
            && after[a].staked == db.balances[a].staked - AmountReported(sts, a, StatusWithdrawn, book)
  {
    if sts != [] {
      var before, last := sts[..|sts| - 1], sts[|sts| - 1];
      ReportedNext(sts, a, StatusWithdrawn, book);
      UnstakingBuckets(db, before, a, book);
      var mid, status := SettleAll(db, before, book), book(last.providerRef);
      if status == StatusWithdrawn { WithdrawnSettles(mid, last); } else { UndecidedStays(mid, last, status); }
    }
  }

  // ---- Pending covers every listed delegation ------------------------------------

  /** A sum over distinct ids is part of the sum over all ids. */
  lemma {:induction false} SumOverIds(f: nat -> int, g: nat -> int, ids: seq<nat>, n: nat)
    requires forall k: nat :: k < n ==> f(k) >= 0
    requires forall p, q :: 0 <= p < q < |ids| ==> ids[p] != ids[q]
    requires forall p :: 0 <= p < |ids| ==> ids[p] < n && g(p) <= f(ids[p])
    ensures Sum(g, |ids|) <= Sum(f, n)
  {
    if ids == [] {
      SumAtMost((k: nat) => 0, f, n);
      SumZero((k: nat) => 0, n);
    } else {
      var last := |ids| - 1;
      var k := ids[last];
      var rest: nat -> int := (j: nat) => if j == k then 0 else f(j);
      SumOverIds(rest, g, ids[..last], n);
      SumChange(f, rest, n, k);
    }
  }

  /** A stake waiting for its confirmation still has its whole amount in pending. */
  lemma DelegatingInPending(s: State, a: Account, k: nat)
    requires PhaseInv(s) && k in s.db.stakes && s.db.stakes[k].state == Delegating && s.db.stakes[k].account == a
    ensures k < |s.ops| && PendingPart(s, a)(k) == s.db.stakes[k].amount > 0
  {
    assert RowOk(s.ops, k, s.db.stakes[k]);
    assert TallyOk(s.db.stakes, s.ops, k, Count(s.journal, k));
  }

  lemma ReportsOnce(sts: seq<StakeRow>, a: Account, book: string -> ProviderStatus, both: nat -> int)
    requires forall p: nat :: p < |sts| ==>
               both(p) == Reports(sts, a, StatusActive, book)(p) + Reports(sts, a, StatusFailed, book)(p)
    ensures Sum(both, |sts|) == AmountReported(sts, a, StatusActive, book) + AmountReported(sts, a, StatusFailed, book)
  {
    SumPlus(Reports(sts, a, StatusActive, book), Reports(sts, a, StatusFailed, book), both, |sts|);
  }

  lemma OneReport(sts: seq<StakeRow>, a: Account, book: string -> ProviderStatus, p: nat)
    requires p < |sts| && sts[p].amount > 0
    ensures Reports(sts, a, StatusActive, book)(p) + Reports(sts, a, StatusFailed, book)(p) <= if sts[p].account == a then sts[p].amount else 0
    ensures sts[p].account != a ==> Reports(sts, a, StatusActive, book)(p) + Reports(sts, a, StatusFailed, book)(p) == 0
  {
  }

  lemma PendingCoversListed(s: State, ids: seq<nat>, a: Account, book: string -> ProviderStatus)
    requires LedgerInv(s) && a in s.db.balances
    requires forall p :: 0 <= p < |ids| ==> ids[p] in s.db.stakes && s.db.stakes[ids[p]].state == Delegating
    requires forall p, q :: 0 <= p < q < |ids| ==> ids[p] != ids[q]
    ensures var sts := RowsOf(s.db.stakes, ids);
            s.db.balances[a].pending >= AmountReported(sts, a, StatusActive, book) + AmountReported(sts, a, StatusFailed, book)
  {
    var sts, n := RowsOf(s.db.stakes, ids), |s.ops|;
    var both: nat -> int := (p: nat) => Reports(sts, a, StatusActive, book)(p) + Reports(sts, a, StatusFailed, book)(p);
    forall k: nat | k < n ensures PendingPart(s, a)(k) >= 0 { PendingNonNegative(s, a, k); }
    forall p | 0 <= p < |ids| ensures ids[p] < n && both(p) <= PendingPart(s, a)(ids[p]) {
      DelegatingInPending(s, s.db.stakes[ids[p]].account, ids[p]);
      PendingNonNegative(s, a, ids[p]);
      OneReport(sts, a, book, p);
      if sts[p].account == a { assert both(p) <= sts[p].amount; } else { assert both(p) == 0; }
    }
    SumOverIds(PendingPart(s, a), both, ids, n);
    ReportsOnce(sts, a, book, both);
    assert PendingOf(s.db.balances, a) == Sum(PendingPart(s, a), n);
  }

  /** In every run without overwrites the guards of a delegation pass hold, so each account's
      buckets move by exactly the reported amounts. */
  lemma DelegatingPass(events: seq<Event>, ids: seq<nat>, a: Account, book: string -> ProviderStatus)
    requires NoOverwrite(events) && a in Run(events).db.balances && IsListing(Run(events).db.stakes, Delegating, 100, ids)
    ensures var db := Run(events).db;
            var sts := RowsOf(db.stakes, ids);
            var was, after := db.balances[a], SettleAll(db, sts, book).balances;
            && a in after
            && after[a].available == was.available + AmountReported(sts, a, StatusFailed, book)
            && after[a].pending == was.pending - AmountReported(sts, a, StatusActive, book) - AmountReported(sts, a, StatusFailed, book)
            && after[a].staked == was.staked + AmountReported(sts, a, StatusActive, book)
  {
    LedgerOk(events);
    var s := Run(events);
    PendingCoversListed(s, ids, a, book);
    forall p | 0 <= p < |ids| ensures s.db.stakes[ids[p]].amount > 0 { assert RowOk(s.ops, ids[p], s.db.stakes[ids[p]]); }
    DelegatingBuckets(s.db, RowsOf(s.db.stakes, ids), a, book);
  }

  /** In every run, a withdrawal pass moves each account that has the reported amounts staked. */
  lemma UnstakingPass(events: seq<Event>, ids: seq<nat>, a: Account, book: string -> ProviderStatus)
    requires a in Run(events).db.balances && IsListing(Run(events).db.stakes, Unstaking, 100, ids)
    requires Run(events).db.balances[a].staked >= AmountReported(RowsOf(Run(events).db.stakes, ids), a, StatusWithdrawn, book)
    ensures var db := Run(events).db;
            var sts := RowsOf(db.stakes, ids);
            var was, after := db.balances[a], SettleAll(db, sts, book).balances;
            && a in after
            && after[a].available == was.available + AmountReported(sts, a, StatusWithdrawn, book)
            && after[a].pending == was.pending
            && after[a].staked == was.staked - AmountReported(sts, a, StatusWithdrawn, book)
  {
    StakesOk(events);
    var s := Run(events);
    forall p | 0 <= p < |ids| ensures s.db.stakes[ids[p]].amount > 0 { assert RowOk(s.ops, ids[p], s.db.stakes[ids[p]]); }
    UnstakingBuckets(s.db, RowsOf(s.db.stakes, ids), a, book);
  }

  // ---- Whole passes --------------------------------------------------------------

  /** Each listed delegation reported ACTIVE or FAILED is that, the others are as they were. */
  ghost predicate DelegationsSettled(before: map<nat, StakeRow>, after: map<nat, StakeRow>, ids: seq<nat>, book: string -> ProviderStatus) {
    && after.Keys == before.Keys && (forall k :: k in before && k !in ids ==> after[k] == before[k])
    && forall k :: k in before && k in ids ==>
         var st, status := before[k], book(before[k].providerRef);
         && (status == StatusActive ==> after[k] == st.(state := Active, version := st.version + 1))
         && (status == StatusFailed ==>
               after[k] == st.(state := Failed, failureReason := "provider reported failure", version := st.version + 1))
         && (status != StatusActive && status != StatusFailed ==> after[k] == st)
  }

  /** Each account's pending pays for its confirmed and its failed delegations. */
  ghost predicate DelegationsMoved(db: Tables, after: map<Account, BalanceRow>, sts: seq<StakeRow>, book: string -> ProviderStatus) {
    forall a :: a in db.balances ==>
      var confirmed, failed := AmountReported(sts, a, StatusActive, book), AmountReported(sts, a, StatusFailed, book);
      && a in after
      && after[a].available == db.balances[a].available + failed
      && after[a].pending == db.balances[a].pending - confirmed - failed
      && after[a].staked == db.balances[a].staked + confirmed
  }

  /** Each listed unbonding reported WITHDRAWN is that, the others are as they were. */
  ghost predicate WithdrawalsSettled(before: map<nat, StakeRow>, after: map<nat, StakeRow>, ids: seq<nat>, book: string -> ProviderStatus) {
    && after.Keys == before.Keys && (forall k :: k in before && k !in ids ==> after[k] == before[k])
    && forall k :: k in before && k in ids ==>
         var st, status := before[k], book(before[k].providerRef);
         && (status == StatusWithdrawn ==> after[k] == st.(state := Withdrawn, version := st.version + 1))
         && (status != StatusWithdrawn ==> after[k] == st)
  }

  /** Each account with enough staked gets its finished withdrawals back. */
  ghost predicate WithdrawalsPaid(db: Tables, after: map<Account, BalanceRow>, sts: seq<StakeRow>, book: string -> ProviderStatus) {
    forall a :: a in db.balances && db.balances[a].staked >= AmountReported(sts, a, StatusWithdrawn, book) ==>
      var paid := AmountReported(sts, a, StatusWithdrawn, book);
      && a in after
      && after[a].available == db.balances[a].available + paid
      && after[a].pending == db.balances[a].pending
      && after[a].staked == db.balances[a].staked - paid
  }

  lemma DelegatingPassMeans(events: seq<Event>, db: Tables, ids: seq<nat>, book: string -> ProviderStatus)
    requires db == Run(events).db && Keyed(db.stakes) && IsListing(db.stakes, Delegating, 100, ids)
    ensures var sts := RowsOf(db.stakes, ids);
            var after := SettleAll(db, sts, book);
            && DelegationsSettled(db.stakes, after.stakes, ids, book)
            && (NoOverwrite(events) ==> DelegationsMoved(db, after.balances, sts, book))
  {
    PassStakes(db, ids, Delegating, book);
    if NoOverwrite(events) {
      forall a | a in Run(events).db.balances { DelegatingPass(events, ids, a, book); }
    }
  }

  lemma UnstakingPassMeans(events: seq<Event>, db: Tables, ids: seq<nat>, book: string -> ProviderStatus)
    requires db == Run(events).db && Keyed(db.stakes) && IsListing(db.stakes, Unstaking, 100, ids)
    ensures var sts := RowsOf(db.stakes, ids);
            var after := SettleAll(db, sts, book);
            WithdrawalsSettled(db.stakes, after.stakes, ids, book) && WithdrawalsPaid(db, after.balances, sts, book)
  {
    PassStakes(db, ids, Unstaking, book);
    forall a | a in db.balances && db.balances[a].staked >= AmountReported(RowsOf(db.stakes, ids), a, StatusWithdrawn, book) {
      UnstakingPass(events, ids, a, book);
    }
  }
}
