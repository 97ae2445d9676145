/** Fetching rewards when nothing interferes and no call fails: the pass against a simple
    specification by stake and date. */
module Fetching {
  import opened Rows
  import opened Protocol
  import opened Earnings
  import opened RunningTotals
  import opened Sums
  import opened Worlds

  /** The tables, and the id the next recorded entry draws. */
  datatype Fetch = Fetch(db: Tables, next: nat)

  function CreditBalance(balances: map<Account, BalanceRow>, a: Account, i: nat, amount: int): map<Account, BalanceRow> {
    if a in balances then balances[a := Apply(Credited(i, amount), balances[a])] else balances
  }

  function FetchEntry(f: Fetch, st: StakeRow, entry: RewardEntry): Fetch {
    if entry.date.None? then f
    else if entry.amount <= 0 || Rewarded(f.db.rewards, st.id, entry.date.value) then f.(next := f.next + 1)
    else
      var cumulative := TotalRewards(f.db.rewards, st.id) + entry.amount;
      var row := RewardRow(f.next, st.id, st.account, entry.amount, cumulative, entry.date.value);
      Fetch(f.db.(rewards := f.db.rewards + [row],
            balances := CreditBalance(f.db.balances, st.account, f.next, entry.amount)), f.next + 1)
  }

  function FetchEntries(f: Fetch, st: StakeRow, entries: seq<RewardEntry>): Fetch {
    if entries == [] then f
    else FetchEntry(FetchEntries(f, st, entries[..|entries| - 1]), st, entries[|entries| - 1])
  }

  function FetchAll(f: Fetch, sts: seq<StakeRow>, book: string -> seq<RewardEntry>): Fetch {
    if sts == [] then f
    else
      var last := sts[|sts| - 1];
      FetchEntries(FetchAll(f, sts[..|sts| - 1], book), last, book(last.providerRef))
  }

  // ---- The specification ---------------------------------------------------------

  /** The recorded amount of a stake for a date. */
  function RewardFor(rewards: seq<RewardRow>, k: nat, date: nat): Option<int> {
    if rewards == [] then None
    else
      var earlier, last := RewardFor(rewards[..|rewards| - 1], k, date), rewards[|rewards| - 1];
      if earlier.Some? then earlier
      else if last.stake == k && last.date == date then Some(last.amount) else None
  }

  /** The first positive entry for a date. */
  function FirstPositive(entries: seq<RewardEntry>, date: nat): Option<int> {
    if entries == [] then None
    else
      var earlier, last := FirstPositive(entries[..|entries| - 1], date), entries[|entries| - 1];
      if earlier.Some? then earlier
      else if last.date == Some(date) && last.amount > 0 then Some(last.amount) else None
  }

  function OrElse(x: Option<int>, y: Option<int>): Option<int> {
    if x.Some? then x else y
  }

  function SumFor(rewards: seq<RewardRow>, a: Account): int {
    if rewards == [] then 0
    else SumFor(rewards[..|rewards| - 1], a) + (if rewards[|rewards| - 1].account == a then rewards[|rewards| - 1].amount else 0)
  }

  lemma {:induction false} RewardedMeans(rewards: seq<RewardRow>, k: nat, date: nat)
    ensures Rewarded(rewards, k, date) <==> RewardFor(rewards, k, date).Some?
  {
    if rewards != [] {
      var before, last := rewards[..|rewards| - 1], rewards[|rewards| - 1];
      RewardedMeans(before, k, date);
      if Rewarded(before, k, date) {
        var r :| 0 <= r < |before| && before[r].stake == k && before[r].date == date;
        assert rewards[r].stake == k && rewards[r].date == date;
      }
      assert rewards == before + [last];
    }
  }

  lemma RewardAppend(rewards: seq<RewardRow>, row: RewardRow, k: nat, date: nat, a: Account)
    ensures RewardFor(rewards + [row], k, date)
         == OrElse(RewardFor(rewards, k, date), if row.stake == k && row.date == date then Some(row.amount) else None)
    ensures SumFor(rewards + [row], a) == SumFor(rewards, a) + (if row.account == a then row.amount else 0)
  {
    assert (rewards + [row])[..|rewards|] == rewards;
  }

  /** An entry adds its amount under its date if it is positive and the date is unseen. */
  lemma EntryAdds(f: Fetch, st: StakeRow, entry: RewardEntry, k: nat, date: nat)
    ensures RewardFor(FetchEntry(f, st, entry).db.rewards, k, date)
         == OrElse(RewardFor(f.db.rewards, k, date),
                   if k == st.id && entry.date == Some(date) && entry.amount > 0 then Some(entry.amount) else None)
  {
    RewardedMeans(f.db.rewards, k, date);
    if entry.date.Some? {
      var row := RewardRow(f.next, st.id, st.account, entry.amount, TotalRewards(f.db.rewards, st.id) + entry.amount, entry.date.value);
      RewardAppend(f.db.rewards, row, k, date, st.account);
    }
  }

  lemma {:induction false} EntriesAdd(f: Fetch, st: StakeRow, entries: seq<RewardEntry>, k: nat, date: nat)
    ensures RewardFor(FetchEntries(f, st, entries).db.rewards, k, date)
         == OrElse(RewardFor(f.db.rewards, k, date), if k == st.id then FirstPositive(entries, date) else None)
  {
    if entries != [] {
      var before := entries[..|entries| - 1];
      EntriesAdd(f, st, before, k, date);
      EntryAdds(FetchEntries(f, st, before), st, entries[|entries| - 1], k, date);
    }
  }

  predicate Lists(sts: seq<StakeRow>, k: nat) {
    exists p :: 0 <= p < |sts| && sts[p].id == k
  }

  predicate DistinctIds(sts: seq<StakeRow>) {
    forall p, q :: 0 <= p < q < |sts| ==> sts[p].id != sts[q].id
  }

  /** Each listed stake's rewards are extended by the first positive, parseable entry for
      every unseen date; no other stake's rewards change. */
  lemma {:induction false} FetchAdds(f: Fetch, sts: seq<StakeRow>, book: string -> seq<RewardEntry>, k: nat, date: nat)
    requires DistinctIds(sts)
    ensures var after := RewardFor(FetchAll(f, sts, book).db.rewards, k, date);
            && (!Lists(sts, k) ==> after == RewardFor(f.db.rewards, k, date))
            && (forall p :: 0 <= p < |sts| && sts[p].id == k ==>
                  after == OrElse(RewardFor(f.db.rewards, k, date), FirstPositive(book(sts[p].providerRef), date)))
  {
    if sts != [] {
      var before, last := sts[..|sts| - 1], sts[|sts| - 1];
      FetchAdds(f, before, book, k, date);
      EntriesAdd(FetchAll(f, before, book), last, book(last.providerRef), k, date);
      if Lists(before, k) {
        var p :| 0 <= p < |before| && before[p].id == k;
        assert sts[p].id == k;
      }
      assert sts[|sts| - 1].id == last.id;
    }
  }

  /** One entry, column by column: it is recorded if and only if its date parses, its amount is
      positive and the stake has no reward of that date; then it counts towards the stake's
      sum and its account gets exactly its amount. */
  lemma EntryMeans(f: Fetch, st: StakeRow, entry: RewardEntry)
    ensures var before, after := f.db, FetchEntry(f, st, entry).db;
            var n := |before.rewards|;
            if entry.date.Some? && entry.amount > 0
               && forall r :: 0 <= r < n ==> !(before.rewards[r].stake == st.id && before.rewards[r].date == entry.date.value)
            then
              && |after.rewards| == n + 1 && after.rewards[..n] == before.rewards
              && after.rewards[n].stake == st.id && after.rewards[n].account == st.account
              && after.rewards[n].amount == entry.amount && after.rewards[n].date == entry.date.value
              && after.rewards[n].cumulative == Sum(EarnedBy(after.rewards, st.id), n + 1)
              && after.stakes == before.stakes
              && (st.account in before.balances ==>
                    var was := before.balances[st.account];
                    after.balances == before.balances[st.account := was.(available := was.available + entry.amount, version := was.version + 1)])
              && (st.account !in before.balances ==> after.balances == before.balances)
            else after == before
  {
    var after, n := FetchEntry(f, st, entry).db, |f.db.rewards|;
    TotalIsSum(f.db.rewards, st.id);
    SumSame(EarnedBy(f.db.rewards, st.id), EarnedBy(after.rewards, st.id), n);
  }

  /** Running totals stay right over a whole pass. */
  lemma {:induction false} EntriesCumulate(f: Fetch, st: StakeRow, entries: seq<RewardEntry>)
    requires Cumulative(f.db.rewards)
    ensures Cumulative(FetchEntries(f, st, entries).db.rewards)
  {
    if entries != [] {
      var before, entry := FetchEntries(f, st, entries[..|entries| - 1]), entries[|entries| - 1];
      EntriesCumulate(f, st, entries[..|entries| - 1]);
      if entry.date.Some? {
        var total := TotalRewards(before.db.rewards, st.id) + entry.amount;
        CumulativeAppend(before.db.rewards, RewardRow(before.next, st.id, st.account, entry.amount, total, entry.date.value));
      }
    }
  }

  /** Every reward a quiet pass records carries the sum of its stake's rewards so far, if the
      recorded ones did before. */
  lemma {:induction false} FetchCumulates(f: Fetch, sts: seq<StakeRow>, book: string -> seq<RewardEntry>)
    requires Cumulative(f.db.rewards)
    ensures Cumulative(FetchAll(f, sts, book).db.rewards)
  {
    if sts != [] {
      var before, last := sts[..|sts| - 1], sts[|sts| - 1];
      FetchCumulates(f, before, book);
      EntriesCumulate(FetchAll(f, before, book), last, book(last.providerRef));
    }
  }

  // ---- Money ---------------------------------------------------------------------

  /** `after` differs from `before` by what the new rewards credit to `available`. */
  ghost predicate CreditedBy(before: Tables, after: Tables) {
    && after.stakes == before.stakes && after.balances.Keys == before.balances.Keys
    && forall a :: a in before.balances ==>
         && after.balances[a].available - before.balances[a].available == SumFor(after.rewards, a) - SumFor(before.rewards, a)
         && after.balances[a].pending == before.balances[a].pending && after.balances[a].staked == before.balances[a].staked
  }

  lemma EntryCredits(f: Fetch, st: StakeRow, entry: RewardEntry)
    ensures CreditedBy(f.db, FetchEntry(f, st, entry).db)
  {
    var after := FetchEntry(f, st, entry).db;
    if after != f.db {
      forall a | a in f.db.balances
        ensures after.balances[a].available - f.db.balances[a].available == SumFor(after.rewards, a) - SumFor(f.db.rewards, a)
      {
        RewardAppend(f.db.rewards, after.rewards[|f.db.rewards|], 0, 0, a);
      }
    }
  }

  lemma {:induction false} EntriesCredit(f: Fetch, st: StakeRow, entries: seq<RewardEntry>)
    ensures CreditedBy(f.db, FetchEntries(f, st, entries).db)
  {
    if entries != [] {
      var before := entries[..|entries| - 1];
      EntriesCredit(f, st, before);
      EntryCredits(FetchEntries(f, st, before), st, entries[|entries| - 1]);
    }
  }

  /** Available grows by exactly the amounts recorded in the pass; nothing else moves. */
  lemma {:induction false} FetchCredits(f: Fetch, sts: seq<StakeRow>, book: string -> seq<RewardEntry>)
    ensures CreditedBy(f.db, FetchAll(f, sts, book).db)
  {
    if sts != [] {
      var before, last := sts[..|sts| - 1], sts[|sts| - 1];
      FetchCredits(f, before, book);
      EntriesCredit(FetchAll(f, before, book), last, book(last.providerRef));
    }
  }

  // ---- A second run --------------------------------------------------------------

  predicate Seen(rewards: seq<RewardRow>, k: nat, entry: RewardEntry) {
    entry.date.Some? && entry.amount > 0 ==> Rewarded(rewards, k, entry.date.value)
  }

  lemma {:induction false} SeenEntriesChangeNothing(f: Fetch, st: StakeRow, entries: seq<RewardEntry>)
    requires forall e :: 0 <= e < |entries| ==> Seen(f.db.rewards, st.id, entries[e])
    ensures FetchEntries(f, st, entries).db == f.db
  {
    if entries != [] { SeenEntriesChangeNothing(f, st, entries[..|entries| - 1]); }
  }

  lemma {:induction false} SeenChangesNothing(f: Fetch, sts: seq<StakeRow>, book: string -> seq<RewardEntry>)
    requires forall p, e :: 0 <= p < |sts| && 0 <= e < |book(sts[p].providerRef)| ==>
               Seen(f.db.rewards, sts[p].id, book(sts[p].providerRef)[e])
    ensures FetchAll(f, sts, book).db == f.db
  {
    if sts != [] {
      var before, last := sts[..|sts| - 1], sts[|sts| - 1];
      SeenChangesNothing(f, before, book);
      assert sts[|sts| - 1] == last;
      SeenEntriesChangeNothing(FetchAll(f, before, book), last, book(last.providerRef));
    }
  }

  lemma {:induction false} PositiveIsFound(entries: seq<RewardEntry>, e: nat)
    requires e < |entries| && entries[e].date.Some? && entries[e].amount > 0
    ensures FirstPositive(entries, entries[e].date.value).Some?
  {
    if e < |entries| - 1 { PositiveIsFound(entries[..|entries| - 1], e); }
  }

  /** A second pass over the same stakes with the same provider answers changes nothing. */
  lemma SecondRunChangesNothing(f: Fetch, sts: seq<StakeRow>, book: string -> seq<RewardEntry>, again: seq<StakeRow>, next: nat)
    requires DistinctIds(sts) && forall p :: 0 <= p < |again| ==> again[p] in sts
    ensures FetchAll(Fetch(FetchAll(f, sts, book).db, next), again, book).db == FetchAll(f, sts, book).db
  {
    var db := FetchAll(f, sts, book).db;
    forall p, e | 0 <= p < |again| && 0 <= e < |book(again[p].providerRef)|
      ensures Seen(db.rewards, again[p].id, book(again[p].providerRef)[e])
    {
      var entry := book(again[p].providerRef)[e];
      if entry.date.Some? && entry.amount > 0 {
        PositiveIsFound(book(again[p].providerRef), e);
        FetchAdds(f, sts, book, again[p].id, entry.date.value);
        RewardedMeans(db.rewards, again[p].id, entry.date.value);
        var q :| 0 <= q < |sts| && sts[q] == again[p];
      }
    }
    SeenChangesNothing(Fetch(db, next), again, book);
  }
}
