/** The poller passes when nothing interferes and no call fails: what one pass does to the
    tables. */
module Passes {
  import opened Rows
  import opened Protocol
  import opened Lifecycle
  import opened Repositories
  import opened Worlds

  // ---- Reconcile passes ----------------------------------------------------------

  /** The balance after the move that follows a stake write. */
  function SettleBalance(balances: map<Account, BalanceRow>, st: StakeRow, to: StakeState): map<Account, BalanceRow> {
    if st.account !in balances || (to != Failed && Refusal(Settlement(st, to), balances[st.account]).Some?) then balances
    else
      var row := balances[st.account];
      balances[st.account := Apply(Written(st, to, row), row)]
  }

  /** One listed stake, given the provider's status: the stake moves and its amount with it. */
  function Settle(db: Tables, st: StakeRow, status: ProviderStatus): Tables {
    var to := Target(st.state, status);
    if to.None? then db
    else db.(stakes := db.stakes[st.id := Reconciled(st, to.value)], balances := SettleBalance(db.balances, st, to.value))
  }

  function SettleAll(db: Tables, sts: seq<StakeRow>, book: string -> ProviderStatus): Tables {
    if sts == [] then db
    else
      var last := sts[|sts| - 1];
      Settle(SettleAll(db, sts[..|sts| - 1], book), last, book(last.providerRef))
  }

  lemma SettleNext(db: Tables, sts: seq<StakeRow>, n: nat, book: string -> ProviderStatus)
    requires n < |sts|
    ensures SettleAll(db, sts[..n + 1], book) == Settle(SettleAll(db, sts[..n], book), sts[n], book(sts[n].providerRef))
  {
    assert sts[..n + 1][..n] == sts[..n];
  }

  function RowsOf(rows: map<nat, StakeRow>, ids: seq<nat>): (sts: seq<StakeRow>)
    requires forall p :: 0 <= p < |ids| ==> ids[p] in rows
    ensures |sts| == |ids| && forall p :: 0 <= p < |ids| ==> sts[p] == rows[ids[p]]
  {
    seq(|ids|, p requires 0 <= p < |ids| => rows[ids[p]])
  }

  function InState(rows: map<nat, StakeRow>, state: StakeState): set<nat> {
    set k | k in rows && rows[k].state == state
  }

  /** A status that ends the wait. */
  predicate Decided(from: StakeState, status: ProviderStatus) {
    (from == Delegating && (status == StatusActive || status == StatusFailed)) || (from == Unstaking && status == StatusWithdrawn)
  }

  /** The provider has settled every stake the pass looks for. */
  predicate Decisive(from: StakeState, rows: map<nat, StakeRow>, book: string -> ProviderStatus) {
    forall k :: k in rows && rows[k].state == from ==> Decided(from, book(rows[k].providerRef))
  }

  /** What one quiet pass over the stakes in state `from` does. */
  ghost predicate Pass(db: Tables, after: Tables, from: StakeState, book: string -> ProviderStatus) {
    exists ids :: IsListing(db.stakes, from, 100, ids) && after == SettleAll(db, RowsOf(db.stakes, ids), book)
  }

  lemma SettleLast(db: Tables, ids: seq<nat>, k: nat, book: string -> ProviderStatus)
    requires k in db.stakes && forall p :: 0 <= p < |ids| ==> ids[p] in db.stakes
    ensures SettleAll(db, RowsOf(db.stakes, ids + [k]), book)
         == Settle(SettleAll(db, RowsOf(db.stakes, ids), book), db.stakes[k], book(db.stakes[k].providerRef))
  {
    assert RowsOf(db.stakes, ids + [k])[..|ids|] == RowsOf(db.stakes, ids);
  }

  /** Where a report takes a waiting stake. */
  predicate TakenTo(st: StakeRow, status: ProviderStatus, row: StakeRow) {
    if st.state == Delegating && status == StatusActive then row == st.(state := Active, version := st.version + 1)
    else if st.state == Delegating && status == StatusFailed then
      row == st.(state := Failed, failureReason := "provider reported failure", version := st.version + 1)
    else if st.state == Unstaking && status == StatusWithdrawn then row == st.(state := Withdrawn, version := st.version + 1)
    else row == st
  }

  lemma OneStake(db: Tables, st: StakeRow, status: ProviderStatus)
    requires st.id in db.stakes && db.stakes[st.id] == st
    ensures var after := Settle(db, st, status).stakes;
            && after.Keys == db.stakes.Keys && (forall k :: k in after && k != st.id ==> after[k] == db.stakes[k])
            && TakenTo(st, status, after[st.id])
  {
  }

  /** Rows after the pass: the unlisted ones stay, the listed ones go where their reports say. */
  ghost predicate AsReported(before: map<nat, StakeRow>, after: map<nat, StakeRow>, ids: seq<nat>, book: string -> ProviderStatus) {
    && after.Keys == before.Keys
    && (forall k :: k in before && k !in ids ==> after[k] == before[k])
    && (forall k :: k in before && k in ids ==> TakenTo(before[k], book(before[k].providerRef), after[k]))
  }

  lemma AsReportedNext(before: map<nat, StakeRow>, mid: map<nat, StakeRow>, after: map<nat, StakeRow>, ids: seq<nat>, k: nat, book: string -> ProviderStatus)
    requires AsReported(before, mid, ids, book) && k in before && k !in ids && after.Keys == mid.Keys
    requires (forall j :: j in after && j != k ==> after[j] == mid[j]) && TakenTo(before[k], book(before[k].providerRef), after[k])
    ensures AsReported(before, after, ids + [k], book)
  {
  }

  lemma {:induction false} PassAsReported(db: Tables, ids: seq<nat>, from: StakeState, book: string -> ProviderStatus)
    requires Keyed(db.stakes) && forall p :: 0 <= p < |ids| ==> ids[p] in db.stakes && db.stakes[ids[p]].state == from
    requires forall p, q :: 0 <= p < q < |ids| ==> ids[p] != ids[q]
    ensures AsReported(db.stakes, SettleAll(db, RowsOf(db.stakes, ids), book).stakes, ids, book)
  {
    if ids != [] {
      var before, k := ids[..|ids| - 1], ids[|ids| - 1];
      PassAsReported(db, before, from, book);
      SettleLast(db, before, k, book);
      assert ids == before + [k];
      assert k !in before;
      var mid, st := SettleAll(db, RowsOf(db.stakes, before), book), db.stakes[k];
      OneStake(mid, st, book(st.providerRef));
      AsReportedNext(db.stakes, mid.stakes, Settle(mid, st, book(st.providerRef)).stakes, before, k, book);
    }
  }

  function SetOf(ids: seq<nat>): set<nat> {
    set p | 0 <= p < |ids| :: ids[p]
  }

  /** A listing holds everything in the state, or the limit. */
  lemma ListingSize(rows: map<nat, StakeRow>, from: StakeState, limit: nat, ids: seq<nat>)
    requires IsListing(rows, from, limit, ids)
    ensures SetOf(ids) <= InState(rows, from)
    ensures |ids| == (if |InState(rows, from)| < limit then |InState(rows, from)| else limit)
    ensures |InState(rows, from) - SetOf(ids)| == |InState(rows, from)| - |ids|
  {
    SizeOf(ids);
    Sizes(SetOf(ids), InState(rows, from));
    if |ids| < limit {
      forall k | k in InState(rows, from) ensures k in SetOf(ids) { assert k in ids; }
      assert InState(rows, from) == SetOf(ids);
    }
  }

  lemma MovedOut(before: map<nat, StakeRow>, after: map<nat, StakeRow>, ids: seq<nat>, from: StakeState, book: string -> ProviderStatus)
    requires Keyed(before) && Decisive(from, before, book) && AsReported(before, after, ids, book)
    requires forall p :: 0 <= p < |ids| ==> ids[p] in before && before[ids[p]].state == from
    ensures InState(after, from) == InState(before, from) - SetOf(ids) && Keyed(after) && Decisive(from, after, book)
  {
    forall k ensures k in SetOf(ids) <==> k in ids {}
    forall k | k in after ensures after[k].id == k && (k in ids ==> after[k].state != from) {
      if k in ids { assert before[k].state == from; }
    }
  }

  /** A decisive pass removes exactly the listed stakes, min(100, n) of the oldest, from the
      state and keeps the rest in it. */
  lemma PassRemovesBatch(db: Tables, ids: seq<nat>, from: StakeState, book: string -> ProviderStatus)
    requires Keyed(db.stakes) && Decisive(from, db.stakes, book) && IsListing(db.stakes, from, 100, ids)
    ensures var after, n := SettleAll(db, RowsOf(db.stakes, ids), book).stakes, |InState(db.stakes, from)|;
            && InState(after, from) == InState(db.stakes, from) - SetOf(ids)
            && |InState(after, from)| == n - (if n < 100 then n else 100)
            && (forall j, k :: j in InState(db.stakes, from) && j !in InState(after, from) && k in InState(after, from) ==>
                  db.stakes[j].createdAt <= db.stakes[k].createdAt)
            && Keyed(after) && Decisive(from, after, book)
  {
    PassAsReported(db, ids, from, book);
    ListingSize(db.stakes, from, 100, ids);
    MovedOut(db.stakes, SettleAll(db, RowsOf(db.stakes, ids), book).stakes, ids, from, book);
  }

  lemma {:induction false} SizeOf(ids: seq<nat>)
    requires forall p, q :: 0 <= p < q < |ids| ==> ids[p] != ids[q]
    ensures |SetOf(ids)| == |ids|
  {
    if ids != [] {
      var before, k := ids[..|ids| - 1], ids[|ids| - 1];
      SizeOf(before);
      assert SetOf(ids) == SetOf(before) + {k};
    }
  }

  lemma Sizes(part: set<nat>, all: set<nat>)
    requires part <= all
    ensures |part| <= |all| && |all - part| == |all| - |part|
  {
    assert all == part + (all - part);
  }
}
