/** Whole polls when nothing interferes and no call fails: two reconcile passes and a reward
    pass in turn, and how many polls it takes to settle every waiting stake. */
module Polling {
  import opened Rows
  import opened Protocol
  import opened Repositories
  import opened Worlds
  import opened Passes
  import opened Fetching

  /** What one quiet pass over the active stakes does; `n` is the next id to draw. */
  ghost predicate Collected(db: Tables, n: nat, after: Tables, next: nat, book: string -> seq<RewardEntry>) {
    exists ids :: IsListing(db.stakes, Active, 100, ids)
                  && Fetch(after, next) == FetchAll(Fetch(db, n), RowsOf(db.stakes, ids), book)
  }

  /** What one quiet poll does. */
  ghost predicate Polled(db: Tables, after: Tables, book: string -> ProviderStatus, rewardBook: string -> seq<RewardEntry>) {
    exists settled, withdrawn, n, next ::
      && Pass(db, settled, Delegating, book)
      && Pass(settled, withdrawn, Unstaking, book)
      && Collected(withdrawn, n, after, next, rewardBook)
  }

  predicate Waiting(state: StakeState) {
    state == Delegating || state == Unstaking
  }

  /** The same stakes are in the state, with the same rows. */
  ghost predicate SameIn(before: map<nat, StakeRow>, after: map<nat, StakeRow>, state: StakeState) {
    && Keyed(after) && InState(after, state) == InState(before, state)
    && forall k :: k in before && before[k].state == state ==> k in after && after[k] == before[k]
  }

  /** A pass over one waiting state leaves the stakes in the other alone and adds none. */
  lemma {:induction false} OtherStateKept(db: Tables, ids: seq<nat>, from: StakeState, other: StakeState, book: string -> ProviderStatus)
    requires Keyed(db.stakes) && Waiting(from) && Waiting(other) && from != other
    requires forall p :: 0 <= p < |ids| ==> ids[p] in db.stakes && db.stakes[ids[p]].state == from
    ensures SameIn(db.stakes, SettleAll(db, RowsOf(db.stakes, ids), book).stakes, other)
  {
    if ids != [] {
      var before, k := ids[..|ids| - 1], ids[|ids| - 1];
      OtherStateKept(db, before, from, other, book);
      SettleLast(db, before, k, book);
      assert ids == before + [k];
      SettleKeeps(db.stakes, SettleAll(db, RowsOf(db.stakes, before), book), db.stakes[k], other, book(db.stakes[k].providerRef));
    }
  }

  lemma SettleKeeps(before: map<nat, StakeRow>, db: Tables, st: StakeRow, other: StakeState, status: ProviderStatus)
    requires SameIn(before, db.stakes, other) && Waiting(other) && st.state != other
    requires st.id in before && before[st.id] == st
    ensures SameIn(before, Settle(db, st, status).stakes, other)
  {
    var after := Settle(db, st, status).stakes;
    assert st.id !in InState(db.stakes, other);
    forall k | k in after ensures k in InState(after, other) <==> k in InState(before, other) {
      assert k in InState(db.stakes, other) <==> k in InState(before, other);
    }
  }

  lemma SameAgain(x: map<nat, StakeRow>, y: map<nat, StakeRow>, state: StakeState, book: string -> ProviderStatus)
    requires SameIn(x, y, state) && Decisive(state, x, book)
    ensures Decisive(state, y, book) && |InState(y, state)| == |InState(x, state)|
  {
    forall k | k in y && y[k].state == state ensures Decided(state, book(y[k].providerRef)) {
      assert k in InState(y, state);
      assert k in InState(x, state);
    }
  }

  /** A decisive pass over its own state. */
  lemma PassDrains(db: Tables, after: Tables, from: StakeState, book: string -> ProviderStatus)
    requires Keyed(db.stakes) && Decisive(from, db.stakes, book) && Pass(db, after, from, book)
    ensures |InState(after.stakes, from)| == if |InState(db.stakes, from)| < 100 then 0 else |InState(db.stakes, from)| - 100
    ensures Keyed(after.stakes) && Decisive(from, after.stakes, book)
  {
    var ids :| IsListing(db.stakes, from, 100, ids) && after == SettleAll(db, RowsOf(db.stakes, ids), book);
    PassRemovesBatch(db, ids, from, book);
  }

  lemma PassKeeps(db: Tables, after: Tables, from: StakeState, other: StakeState, book: string -> ProviderStatus)
    requires Keyed(db.stakes) && Waiting(from) && Waiting(other) && from != other && Pass(db, after, from, book)
    ensures SameIn(db.stakes, after.stakes, other)
  {
    var ids :| IsListing(db.stakes, from, 100, ids) && after == SettleAll(db, RowsOf(db.stakes, ids), book);
    OtherStateKept(db, ids, from, other, book);
  }

  lemma CollectedKeeps(db: Tables, n: nat, after: Tables, next: nat, book: string -> seq<RewardEntry>)
    requires Collected(db, n, after, next, book)
    ensures after.stakes == db.stakes
  {
    var ids :| IsListing(db.stakes, Active, 100, ids)
               && Fetch(after, next) == FetchAll(Fetch(db, n), RowsOf(db.stakes, ids), book);
    FetchCredits(Fetch(db, n), RowsOf(db.stakes, ids), book);
  }

  /** One poll takes min(100, n) stakes out of a waiting state the provider has decided. */
  lemma PollDrains(db: Tables, after: Tables, from: StakeState, book: string -> ProviderStatus, rewardBook: string -> seq<RewardEntry>)
    requires Waiting(from) && Keyed(db.stakes) && Decisive(from, db.stakes, book) && Polled(db, after, book, rewardBook)
    ensures |InState(after.stakes, from)| == if |InState(db.stakes, from)| < 100 then 0 else |InState(db.stakes, from)| - 100
    ensures Keyed(after.stakes) && Decisive(from, after.stakes, book)
  {
    var settled, withdrawn, n, next :|
      && Pass(db, settled, Delegating, book)
      && Pass(settled, withdrawn, Unstaking, book)
      && Collected(withdrawn, n, after, next, rewardBook);
    CollectedKeeps(withdrawn, n, after, next, rewardBook);
    if from == Delegating {
      PassDrains(db, settled, from, book);
      PassKeeps(settled, withdrawn, Unstaking, from, book);
      SameAgain(settled.stakes, withdrawn.stakes, from, book);
    } else {
      PassKeeps(db, settled, Delegating, from, book);
      SameAgain(db.stakes, settled.stakes, from, book);
      PassDrains(settled, withdrawn, from, book);
    }
  }

  ghost predicate AllPolled(dbs: seq<Tables>, book: string -> ProviderStatus, rewardBook: string -> seq<RewardEntry>) {
    |dbs| > 0 && forall p, q :: 0 <= p && p + 1 == q < |dbs| ==> Polled(dbs[p], dbs[q], book, rewardBook)
  }

  lemma {:induction false} PollCount(dbs: seq<Tables>, from: StakeState, book: string -> ProviderStatus, rewardBook: string -> seq<RewardEntry>)
    requires AllPolled(dbs, book, rewardBook) && Waiting(from) && Keyed(dbs[0].stakes) && Decisive(from, dbs[0].stakes, book)
    ensures var last, n, polls := dbs[|dbs| - 1], |InState(dbs[0].stakes, from)|, |dbs| - 1;
            && |InState(last.stakes, from)| == (if n <= 100 * polls then 0 else n - 100 * polls)
            && Keyed(last.stakes) && Decisive(from, last.stakes, book)
  {
    if |dbs| > 1 {
      var before, db, last := dbs[..|dbs| - 1], dbs[|dbs| - 2], dbs[|dbs| - 1];
      assert before[0] == dbs[0] && before[|before| - 1] == db;
      PollCount(before, from, book, rewardBook);
      PollDrains(db, last, from, book, rewardBook);
    }
  }

  /** With n stakes in DELEGATING, all decided by the provider, ceil(n / 100) polls empty the
      state and no fewer do; the same holds of UNSTAKING. */
  lemma PollsDrain(dbs: seq<Tables>, from: StakeState, book: string -> ProviderStatus, rewardBook: string -> seq<RewardEntry>)
    requires AllPolled(dbs, book, rewardBook) && Waiting(from) && Keyed(dbs[0].stakes) && Decisive(from, dbs[0].stakes, book)
    ensures InState(dbs[|dbs| - 1].stakes, from) == {} <==> |dbs| - 1 >= (|InState(dbs[0].stakes, from)| + 99) / 100
  {
    PollCount(dbs, from, book, rewardBook);
  }
}
