/** The theorems about runs, said of the tables the repositories hold: whatever services and
    pollers have done, and whatever stepped in between their calls. */
module Guarantees {
  import opened Rows
  import opened Protocol
  import opened Lifecycle
  import opened Phases
  import opened Locking
  import opened Accounts
  import opened Safety
  import opened Sums
  import opened Orders
  import opened Provenance
  import opened History
  import opened Replies
  import opened Worlds

  /** Solvency, conservation and the version count of every balance row. */
  lemma BalancesSafe(w: World, a: Account)
    requires w.Valid() && NoOverwrite(w.trace) && a in w.balances.rows
    ensures var row := w.balances.rows[a];
            && NonNegative(row)
            && row.pending + row.staked >= Sum(LivePart(w.sys, a), |w.sys.ops|)
            && Total(row) == Inflow(w.sys.journal, a)
            && row.version == Writes(w.sys.journal, a)
    ensures forall k :: k in w.stakes.rows ==> k < |w.sys.ops|
  {
    w.Reached();
    ExactAccounting(w.trace, a);
    Solvency(w.trace, a);
    Conservation(w.trace, a);
    NoLostUpdate(w.trace, a);
  }

  /** Every stored stake, overwriting upserts or not. */
  lemma StakesSafe(w: World, k: nat)
    requires w.Valid() && k in w.stakes.rows
    ensures Lockstep(w.stakes.rows[k]) && w.stakes.rows[k].amount > 0 && w.stakes.rows[k].id == k
    ensures var t := Count(w.sys.journal, k);
            t.held == 1 && t.confirmed + t.released <= 1 && t.completed + t.released <= 1
  {
    w.Reached();
    PhasesOk(w.trace);
    AtMostOnce(w.trace, k);
    var s := Run(w.trace);
    assert RowOk(s.ops, k, s.db.stakes[k]);
    assert TallyOk(s.db.stakes, s.ops, k, Count(s.journal, k));
  }

  /** Every reply given so far, as the tables stand now. */
  lemma RepliesSafe(w: World, i: nat)
    requires w.Valid() && i < |w.sys.ops|
    ensures ReplyOk(w.stakes.rows, i, w.sys.ops[i], Count(w.sys.journal, i).held)
  {
    w.Reached();
    RepliesHonoured(w.trace);
  }

  /** Each stored stake carries the provider's words and each of its moves past PENDING the
      answer that called for it. */
  lemma AnswersSafe(w: World, k: nat)
    requires w.Valid() && k in w.stakes.rows
    ensures RowHeard(w.trace, w.sys.ops, k, w.stakes.rows[k])
  {
    w.Reached();
    EveryMoveWasAnswered(w.trace);
  }

  /** Everything the provider has been asked for, now and before, fits the stored stakes. */
  lemma OrdersSafe(w: World, p: nat)
    requires w.Valid() && p < |w.provider.asked|
    ensures match w.provider.asked[p]
            case AskedToStake(k, asset, amount) =>
              k in w.stakes.rows && w.stakes.rows[k].account.asset == asset && w.stakes.rows[k].amount == amount
            case AskedToUnstake(ref) => exists k :: k in w.stakes.rows && w.stakes.rows[k].providerRef == ref
  {
    w.Reached();
    OrdersAreExact(w.trace, p);
  }

  /** A stake and its key are ordered from the provider at most once. */
  lemma OrderedOnce(w: World, p: nat, q: nat)
    requires w.Valid() && p < q < |w.provider.asked|
    requires w.provider.asked[p].AskedToStake? && w.provider.asked[q].AskedToStake?
    ensures var j, k := w.provider.asked[p].stake, w.provider.asked[q].stake;
            && j != k && j in w.stakes.rows && k in w.stakes.rows
            && (w.stakes.rows[j].key != "" ==> w.stakes.rows[j].key != w.stakes.rows[k].key)
  {
    w.Reached();
    KeysOk(w.trace);
  }
}
