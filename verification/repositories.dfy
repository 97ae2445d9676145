/** The Postgres repositories.  A call may fail without touching the table, unless the
    repository is `reliable`.  Every call is recorded with its answer. */
module Repositories {
  import opened Rows
  import opened Protocol
  import opened Calls
  import opened Domain
  import opened Earnings
  import opened Sums

  class BalanceRepo {
    var rows: map<Account, BalanceRow>
    const reliable: bool
    const tape: Tape

    constructor (reliable: bool, tape: Tape)
      ensures rows == map[] && this.reliable == reliable && this.tape == tape
    {
      rows := map[];
      this.reliable, this.tape := reliable, tape;
    }

    method GetByCustomerAndAsset(account: Account) returns (balance: Balance?, err: Option<Error>)
      modifies tape
      ensures tape.count == old(tape.count) + 1 && tape.last == Made(GetBalance(account), Outcome(err))
      ensures err.None? <==> balance != null
      ensures balance != null ==> fresh(balance) && account in rows && balance.account == account && balance.Row() == rows[account]
      ensures err.Some? ==> err.value == DatabaseError || (err.value == BalanceNotFound && account !in rows)
      ensures reliable ==> err != Some(DatabaseError)
    {
      var fault: bool := *;
      tape.Record(Made(GetBalance(account), if fault && !reliable then Fault else Fine));
      if fault && !reliable { return null, Some(DatabaseError); }
      if account !in rows { return null, Some(BalanceNotFound); }
      balance := new Balance.FromRow(account, rows[account]);
      err := None;
    }

    /** Writes under the version test; a row of another version is left alone. */
    method Update(balance: Balance) returns (err: Option<Error>)
      modifies this`rows, tape
      ensures tape.count == old(tape.count) + 1 && tape.last == Made(UpdateBalance(balance.account, balance.Row()), Outcome(err))
      ensures err.None? ==> balance.account in old(rows) && old(rows)[balance.account].version == balance.version - 1
      ensures err.None? ==> NonNegative(balance.Row()) && rows == old(rows)[balance.account := balance.Row()]
      ensures err.Some? ==> rows == old(rows)
      ensures err.Some? ==> err.value == DatabaseError || err.value == OptimisticLock || err.value == ConstraintViolation
      ensures err == Some(OptimisticLock) ==>
                balance.account !in old(rows) || old(rows)[balance.account].version != balance.version - 1
      ensures err == Some(ConstraintViolation) ==>
                balance.account in old(rows) && old(rows)[balance.account].version == balance.version - 1 && !NonNegative(balance.Row())
      ensures reliable ==> err != Some(DatabaseError)
    {
      var fault: bool := *;
      var oldVersion := balance.version - 1;
      tape.Record(Made(UpdateBalance(balance.account, balance.Row()), if fault && !reliable then Fault else Fine));
      if fault && !reliable { return Some(DatabaseError); }
      if balance.account !in rows || rows[balance.account].version != oldVersion { return Some(OptimisticLock); }
      if balance.available < 0 || balance.pending < 0 || balance.staked < 0 { return Some(ConstraintViolation); }
      rows := rows[balance.account := BalanceRow(balance.available, balance.pending, balance.staked, balance.version)];
      return None;
    }

    /** Inserts the row, or overwrites the one that is there without looking at its version. */
    method Upsert(balance: Balance) returns (err: Option<Error>)
      modifies this`rows, tape
      ensures tape.count == old(tape.count) + 1 && tape.last == Made(UpsertBalance(balance.account, balance.Row()), Outcome(err))
      ensures err.None? ==> NonNegative(balance.Row()) && rows == old(rows)[balance.account := balance.Row()]
      ensures err.Some? ==> rows == old(rows)
      ensures err.Some? ==> err.value == DatabaseError || (err.value == ConstraintViolation && !NonNegative(balance.Row()))
      ensures reliable ==> err != Some(DatabaseError)
    {
      var fault: bool := *;
      tape.Record(Made(UpsertBalance(balance.account, balance.Row()), if fault && !reliable then Fault else Fine));
      if fault && !reliable { return Some(DatabaseError); }
      if balance.available < 0 || balance.pending < 0 || balance.staked < 0 { return Some(ConstraintViolation); }
      rows := rows[balance.account := BalanceRow(balance.available, balance.pending, balance.staked, balance.version)];
      return None;
    }
  }

  // ---- Stakes --------------------------------------------------------------------

  /** `ids` lists distinct stakes in the state, oldest first, up to the limit, and leaves
      out none older than a listed one. */
  ghost predicate IsListing(rows: map<nat, StakeRow>, state: StakeState, limit: nat, ids: seq<nat>) {
    && |ids| <= limit
    && (forall p :: 0 <= p < |ids| ==> ids[p] in rows && rows[ids[p]].state == state)
    && (forall p, q :: 0 <= p < q < |ids| ==> ids[p] != ids[q] && rows[ids[p]].createdAt <= rows[ids[q]].createdAt)
    && (forall k :: k in rows && rows[k].state == state && k !in ids ==>
          |ids| == limit && forall p :: 0 <= p < |ids| ==> rows[ids[p]].createdAt <= rows[k].createdAt)
  }

  /** The primary key. */
  ghost predicate Keyed(rows: map<nat, StakeRow>) {
    forall k :: k in rows ==> rows[k].id == k
  }

  class StakeRepo {
    var rows: map<nat, StakeRow>
    const reliable: bool
    const tape: Tape

    constructor (reliable: bool, tape: Tape)
      ensures rows == map[] && this.reliable == reliable && this.tape == tape
    {
      rows := map[];
      this.reliable, this.tape := reliable, tape;
    }

    method Create(stake: Stake) returns (err: Option<Error>)
      modifies this`rows, tape
      ensures tape.count == old(tape.count) + 1 && tape.last == Made(CreateStakeRow(stake.Row()), Outcome(err))
      ensures err.None? ==> stake.id !in old(rows) && !KeyTaken(old(rows), stake.key) && rows == old(rows)[stake.id := stake.Row()]
      ensures err.Some? ==> rows == old(rows)
      ensures err.Some? ==> err.value == DatabaseError
                            || (err.value == ConstraintViolation && (stake.id in old(rows) || KeyTaken(old(rows), stake.key)))
      ensures reliable ==> err != Some(DatabaseError)
    {
      var fault: bool := *;
      tape.Record(Made(CreateStakeRow(stake.Row()), if fault && !reliable then Fault else Fine));
      if fault && !reliable { return Some(DatabaseError); }
      if stake.id in rows || KeyTaken(rows, stake.key) { return Some(ConstraintViolation); }
      rows := rows[stake.id := StakeRow(stake.id, stake.account, stake.amount, stake.state, stake.providerRef,
                                        stake.validator, stake.key, stake.failureReason, stake.version, stake.createdAt)];
      return None;
    }

    method GetByID(id: nat) returns (stake: Stake?, err: Option<Error>)
      modifies tape
      ensures tape.count == old(tape.count) + 1 && tape.last == Made(GetStake(id), Outcome(err))
      ensures err.None? <==> stake != null
      ensures stake != null ==> fresh(stake) && id in rows && stake.Row() == rows[id]
      ensures err.Some? ==> err.value == DatabaseError || (err.value == StakeNotFound && id !in rows)
      ensures reliable ==> err != Some(DatabaseError)
    {
      var fault: bool := *;
      tape.Record(Made(GetStake(id), if fault && !reliable then Fault else Fine));
      if fault && !reliable { return null, Some(DatabaseError); }
      if id !in rows { return null, Some(StakeNotFound); }
      stake := new Stake.FromRow(rows[id]);
      err := None;
    }

    /** Not found is no error here: both results are empty. */
    method GetByIdempotencyKey(key: string) returns (found: Option<nat>, stake: Stake?, err: Option<Error>)
      requires key != ""
      modifies tape
      ensures tape.count == old(tape.count) + 1 && tape.last == Made(FindKey(key), if err.Some? then Fault else if found.Some? then Found(found.value) else Fine)
      ensures err.None? || err.value == DatabaseError
      ensures err.Some? ==> stake == null
      ensures err.None? ==> (found.Some? <==> stake != null) && (stake != null <==> KeyTaken(rows, key))
      ensures stake != null ==> fresh(stake) && found.Some? && found.value in rows
                                && rows[found.value].key == key && stake.Row() == rows[found.value]
      ensures reliable ==> err.None?
    {
      var fault: bool := *;
      if fault && !reliable {
        tape.Record(Made(FindKey(key), Fault));
        return None, null, Some(DatabaseError);
      }
      if !KeyTaken(rows, key) {
        tape.Record(Made(FindKey(key), Fine));
        return None, null, None;
      }
      var k :| k in rows && rows[k].key == key;
      tape.Record(Made(FindKey(key), Found(k)));
      found := Some(k);
      stake := new Stake.FromRow(rows[k]);
      err := None;
    }

    /** Compare and set on the version; owner, amount, key and creation time are not written. */
    method Update(stake: Stake) returns (err: Option<Error>)
      modifies this`rows, tape
      ensures tape.count == old(tape.count) + 1 && tape.last == Made(UpdateStakeRow(stake.Row()), Outcome(err))
      ensures err.None? ==>
                CanUpdate(old(rows), stake.Row()) && rows == old(rows)[stake.id := Updated(old(rows)[stake.id], stake.Row())]
      ensures err.Some? ==> rows == old(rows) && (err.value == DatabaseError || err.value == OptimisticLock)
      ensures err == Some(OptimisticLock) ==> !CanUpdate(old(rows), stake.Row())
      ensures reliable ==> err != Some(DatabaseError)
    {
      var fault: bool := *;
      var oldVersion := stake.version - 1;
      tape.Record(Made(UpdateStakeRow(stake.Row()), if fault && !reliable then Fault else Fine));
      if fault && !reliable { return Some(DatabaseError); }
      if stake.id !in rows || rows[stake.id].version != oldVersion { return Some(OptimisticLock); }
      var stored := rows[stake.id];
      rows := rows[stake.id := stored.(state := stake.state, providerRef := stake.providerRef, validator := stake.validator,
      failureReason := stake.failureReason, version := stake.version)];
      return None;
    }

    /** The oldest id among the remaining ones. */
    method Oldest(remaining: set<nat>) returns (k: nat)
      requires remaining != {} && forall j :: j in remaining ==> j in rows
      ensures k in remaining && forall j :: j in remaining ==> rows[k].createdAt <= rows[j].createdAt
    {
      k :| k in remaining;
      var rest := remaining - {k};
      while rest != {}
        invariant k in remaining && rest <= remaining
        invariant forall j :: j in remaining - rest ==> rows[k].createdAt <= rows[j].createdAt
        decreases rest
      {
        var j :| j in rest;
        if rows[j].createdAt < rows[k].createdAt { k := j; }
        rest := rest - {j};
      }
    }

    /** ORDER BY created_at ASC LIMIT: take the oldest of what is left, up to the limit. */
    method SelectByState(state: StakeState, limit: nat) returns (ids: seq<nat>)
      ensures IsListing(rows, state, limit, ids)
    {
      var remaining := set k | k in rows && rows[k].state == state;
      ids := [];
      while remaining != {} && |ids| < limit
        invariant |ids| <= limit
        invariant forall k :: k in rows && rows[k].state == state <==> k in remaining || k in ids
        invariant forall p :: 0 <= p < |ids| ==> ids[p] in rows && ids[p] !in remaining
        invariant forall p, q :: 0 <= p < q < |ids| ==> ids[p] != ids[q] && rows[ids[p]].createdAt <= rows[ids[q]].createdAt
        invariant forall p, k :: 0 <= p < |ids| && k in remaining ==> rows[ids[p]].createdAt <= rows[k].createdAt
        decreases limit - |ids|
      {
        var k := Oldest(remaining);
        ids := ids + [k];
        remaining := remaining - {k};
      }
    }

    method ListByState(state: StakeState, limit: nat) returns (ids: seq<nat>, stakes: seq<Stake>, err: Option<Error>)
      ensures err.Some? ==> stakes == [] && ids == [] && !reliable
      ensures err.None? ==> IsListing(rows, state, limit, ids)
      ensures |ids| <= limit && forall p :: 0 <= p < |ids| ==> ids[p] in rows && rows[ids[p]].state == state
      ensures forall p, q :: 0 <= p < q < |ids| ==> ids[p] != ids[q] && rows[ids[p]].createdAt <= rows[ids[q]].createdAt
      ensures err.None? ==> forall k :: k in rows && rows[k].state == state && k !in ids ==>
                |ids| == limit && forall p :: 0 <= p < |ids| ==> rows[ids[p]].createdAt <= rows[k].createdAt
      ensures |ids| == |stakes|
      ensures forall p :: 0 <= p < |stakes| ==> fresh(stakes[p]) && ids[p] in rows && stakes[p].Row() == rows[ids[p]]
      ensures forall p, q :: 0 <= p < q < |stakes| ==> stakes[p] != stakes[q]
    {
      var fault: bool := *;
      if fault && !reliable { return [], [], Some(DatabaseError); }
      ids := SelectByState(state, limit);
      stakes, err := [], None;
      for n := 0 to |ids|
        invariant |stakes| == n
        invariant forall p :: 0 <= p < n ==> fresh(stakes[p]) && stakes[p].Row() == rows[ids[p]]
        invariant forall p, q :: 0 <= p < q < n ==> stakes[p] != stakes[q]
      {
        var stake := new Stake.FromRow(rows[ids[n]]);
        stakes := stakes + [stake];
      }
    }
  }

  // ---- Rewards -------------------------------------------------------------------

  class RewardRepo {
    var rows: seq<RewardRow>
    const reliable: bool
    const tape: Tape

    constructor (reliable: bool, tape: Tape)
      ensures rows == [] && this.reliable == reliable && this.tape == tape
    {
      rows := [];
      this.reliable, this.tape := reliable, tape;
    }

    method Create(reward: RewardRow) returns (err: Option<Error>)
      modifies this`rows, tape
      ensures tape.count == old(tape.count) + 1 && tape.last == Made(CreateReward(reward), Outcome(err))
      ensures err.None? ==> !Rewarded(old(rows), reward.stake, reward.date) && rows == old(rows) + [reward]
      ensures err.Some? ==> rows == old(rows)
      ensures err.Some? ==> err.value == DatabaseError || Rewarded(old(rows), reward.stake, reward.date)
      ensures reliable ==> err != Some(DatabaseError)
    {
      var fault: bool := *;
      tape.Record(Made(CreateReward(reward), if fault && !reliable then Fault else Fine));
      if fault && !reliable { return Some(DatabaseError); }
      if Rewarded(rows, reward.stake, reward.date) { return Some(ConstraintViolation); }
      rows := rows + [reward];
      return None;
    }

    /** SUM(amount) of the stake's rows; scanning the NULL maximum date of no rows is an error. */
    method GetTotalByStakeID(stake: nat) returns (total: int, err: Option<Error>)
      modifies tape
      ensures tape.count == old(tape.count) + 1 && tape.last == Made(SumRewards(stake), Outcome(err))
      ensures err.None? ==> total == Sum(EarnedBy(rows, stake), |rows|)
      ensures err.Some? ==> err.value == DatabaseError || err.value == ScanError
      ensures err == Some(ScanError) <==> (err != Some(DatabaseError) && forall r :: 0 <= r < |rows| ==> rows[r].stake != stake)
      ensures reliable ==> err != Some(DatabaseError)
    {
      var fault: bool := *;
      tape.Record(Made(SumRewards(stake), if fault && !reliable then Fault else Fine));
      if fault && !reliable { return 0, Some(DatabaseError); }
      total := 0;
      var count := 0;
      for n := 0 to |rows|
        invariant total == Sum(EarnedBy(rows, stake), n)
        invariant count == 0 <==> forall r :: 0 <= r < n ==> rows[r].stake != stake
      {
        if rows[n].stake == stake { total, count := total + rows[n].amount, count + 1; }
      }
      if count == 0 { return 0, Some(ScanError); }
      err := None;
    }
  }
}
