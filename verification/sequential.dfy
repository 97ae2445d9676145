/** The services when nothing interferes and no call fails: what one call does to the tables
    and what it replies. */
module Sequential {
  import opened Rows
  import opened Protocol

  /** The provider's answer to a stake request is an acceptance or a refusal. */
  function StakeAnswer(answer: Answer): Answer {
    if answer.Accepted? || answer.Refused? then answer else Refused("")
  }

  // ---- CreateStake ---------------------------------------------------------------

  function Answered(stake: StakeRow, answer: Answer): StakeRow {
    match answer
    case Accepted(validator, ref) => Delegated(stake, validator, ref)
    case Refused(reason) => MarkedFailed(stake, reason)
    case _ => MarkedFailed(stake, "")
  }

  /** The amount is on hold: the stake is stored and then delegated, or failed and released. */
  function PlaceHeld(db: Tables, i: nat, req: Request, answer: Answer): (Tables, Reply)
    requires req.account in db.balances
  {
    var row := Answered(PendingStake(i, req), answer);
    var stakes := db.stakes[i := row];
    if answer.Accepted? then (db.(stakes := stakes), Position(row))
    else
      var released := Apply(Released(i, Amount(req)), db.balances[req.account]);
      (db.(stakes := stakes, balances := db.balances[req.account := released]), Failure(ProviderError))
  }

  lemma PlaceHeldStored(db: Tables, i: nat, req: Request, answer: Answer)
    requires req.account in db.balances
    ensures PlaceHeld(db.(stakes := db.stakes[i := PendingStake(i, req)]), i, req, answer) == PlaceHeld(db, i, req, answer)
  {
    var stake := PendingStake(i, req);
    var row := Answered(stake, answer);
    assert db.stakes[i := stake][i := row] == db.stakes[i := row];
  }

  function HoldFor(db: Tables, i: nat, req: Request): Tables
    requires req.account in db.balances
  {
    db.(balances := db.balances[req.account := Apply(Held(i, Amount(req)), db.balances[req.account])])
  }

  /** A request under a new key. */
  function PlaceNew(db: Tables, i: nat, req: Request, answer: Answer): (Tables, Reply) {
    if req.amount.None? then (db, Failure(MalformedAmount))
    else if req.amount.value <= 0 then (db, Failure(InvalidAmount))
    else if req.account !in db.balances then (db, Failure(BalanceNotFound))
    else if db.balances[req.account].available < req.amount.value then (db, Failure(InsufficientBalance))
    else PlaceHeld(HoldFor(db, i, req), i, req, answer)
  }

  /** The stored stake that answers a repeated key. */
  predicate AnswersKey(db: Tables, key: string, reply: Reply) {
    && reply.Position? && reply.row.key == key
    && reply.row.id in db.stakes && db.stakes[reply.row.id] == reply.row
  }

  predicate Placed(db: Tables, after: Tables, i: nat, req: Request, answer: Answer, reply: Reply) {
    if KeyTaken(db.stakes, req.key) then after == db && AnswersKey(db, req.key, reply)
    else (after, reply) == PlaceNew(db, i, req, answer)
  }

  /** Column by column, what an accepted request stores and replies: the provider's reference as
      reference and its validator as validator, and the amount from available to pending. */
  lemma AcceptedPlacement(db: Tables, after: Tables, i: nat, req: Request, validator: string, ref: string, reply: Reply)
    requires Placed(db, after, i, req, Accepted(validator, ref), reply)
    requires req.key == "" || forall k :: k in db.stakes ==> db.stakes[k].key != req.key
    requires req.amount.Some? && req.account in db.balances && 0 < req.amount.value <= db.balances[req.account].available
    ensures reply.Position? && reply.row.providerRef == ref && reply.row.validator == validator
    ensures reply.row.id == i && reply.row.account == req.account && reply.row.amount == req.amount.value && reply.row.key == req.key
    ensures reply.row.state == Delegating && reply.row.version == 2 && reply.row.failureReason == ""
    ensures reply.row.createdAt == req.createdAt
    ensures after.stakes == db.stakes[i := reply.row] && after.rewards == db.rewards
    ensures var was := db.balances[req.account];
            after.balances == db.balances[req.account := BalanceRow(was.available - req.amount.value, was.pending + req.amount.value,
                                                                    was.staked, was.version + 1)]
  {
  }

  /** A refused request leaves a FAILED stake with the provider's reason and the buckets as
      they were, two versions on. */
  lemma RefusedPlacement(db: Tables, after: Tables, i: nat, req: Request, reason: string, reply: Reply)
    requires Placed(db, after, i, req, Refused(reason), reply)
    requires req.key == "" || forall k :: k in db.stakes ==> db.stakes[k].key != req.key
    requires req.amount.Some? && req.account in db.balances && 0 < req.amount.value <= db.balances[req.account].available
    ensures reply == Failure(ProviderError)
    ensures after.stakes == db.stakes[i := StakeRow(i, req.account, req.amount.value, Failed, "", "", req.key, reason, 2, req.createdAt)]
    ensures var was := db.balances[req.account];
            after.balances == db.balances[req.account := BalanceRow(was.available, was.pending, was.staked, was.version + 2)]
    ensures after.rewards == db.rewards
  {
    var was := db.balances[req.account];
    var held := BalanceRow(was.available - req.amount.value, was.pending + req.amount.value, was.staked, was.version + 1);
    var released := BalanceRow(was.available, was.pending, was.staked, was.version + 2);
    assert db.balances[req.account := held][req.account := released] == db.balances[req.account := released];
  }

  /** Which requests are turned away, with which error; they change nothing. */
  lemma TurnedAwayPlacement(db: Tables, after: Tables, i: nat, req: Request, answer: Answer, reply: Reply)
    requires Placed(db, after, i, req, answer, reply)
    requires req.key == "" || forall k :: k in db.stakes ==> db.stakes[k].key != req.key
    ensures reply == Failure(MalformedAmount) <==> req.amount.None?
    ensures reply == Failure(InvalidAmount) <==> req.amount.Some? && req.amount.value <= 0
    ensures reply == Failure(BalanceNotFound) <==> req.amount.Some? && req.amount.value > 0 && req.account !in db.balances
    ensures reply == Failure(InsufficientBalance) <==>
            req.amount.Some? && req.amount.value > 0 && req.account in db.balances && db.balances[req.account].available < req.amount.value
    ensures reply.Failure? && reply.error != ProviderError ==> after == db
  {
  }

  /** A known key is answered with its stake, whatever else the request says. */
  lemma KnownPlacement(db: Tables, after: Tables, i: nat, req: Request, answer: Answer, reply: Reply, k: nat)
    requires Placed(db, after, i, req, answer, reply)
    requires req.key != "" && k in db.stakes && db.stakes[k].key == req.key
    ensures after == db && reply.Position? && reply.row.key == req.key
    ensures (forall j :: j in db.stakes && db.stakes[j].key == req.key ==> j == k) ==> reply.row == db.stakes[k]
  {
  }

  /** Money only moves between buckets, and only an accepted request moves any: the amount
      leaves available for pending; any other reply leaves every bucket as it was. */
  lemma PlacedMoves(db: Tables, after: Tables, i: nat, req: Request, answer: Answer, reply: Reply)
    requires Placed(db, after, i, req, answer, reply)
    ensures after.balances.Keys == db.balances.Keys && after.rewards == db.rewards
    ensures var moved := if reply.Position? && after != db then Amount(req) else 0;
            forall a :: a in db.balances ==>
              var m := if a == req.account then moved else 0;
              && after.balances[a].available == db.balances[a].available - m
              && after.balances[a].pending == db.balances[a].pending + m
              && after.balances[a].staked == db.balances[a].staked
  {
  }

  /** The same request sent again under its key returns the same stake and changes nothing. */
  lemma PlacedTwice(db: Tables, mid: Tables, after: Tables, i: nat, j: nat, req: Request, answer: Answer, other: Answer, reply: Reply, again: Reply)
    requires req.key != "" && i !in db.stakes
    requires Placed(db, mid, i, req, answer, reply) && Placed(mid, after, j, req, other, again)
    requires reply.Position? && !KeyTaken(db.stakes, req.key)
    ensures after == mid && again == reply
  {
    assert mid.stakes[i].key == req.key;
    assert forall k :: k in mid.stakes && mid.stakes[k].key == req.key ==> k == i;
  }

  // ---- Unstake -------------------------------------------------------------------

  function Unstaked(db: Tables, k: nat, accepts: bool): (Tables, Reply) {
    if k !in db.stakes then (db, Failure(StakeNotFound))
    else
      var st := db.stakes[k];
      if st.state == Unstaking || st.state == Withdrawn then (db, Position(st))
      else if st.state != Active then (db, Failure(InvalidStateTransition))
      else if !accepts then (db, Failure(ProviderError))
      else (db.(stakes := db.stakes[k := Moved(st, Unstaking)]), Position(Moved(st, Unstaking)))
  }

  /** A refusing provider leaves every table as it was and fails the request; an accepting one
      makes an ACTIVE stake UNSTAKING; a stake in any other state is not touched. */
  ghost predicate UnstakeMeans(db: Tables, after: Tables, k: nat, accepts: string -> bool, reply: Reply) {
    && (k !in db.stakes ==> reply == Failure(StakeNotFound) && after == db)
    && (k in db.stakes && db.stakes[k].state == Active && !accepts(db.stakes[k].providerRef) ==>
          reply == Failure(ProviderError) && after == db)
    && (k in db.stakes && db.stakes[k].state == Active && accepts(db.stakes[k].providerRef) ==>
          && reply == Position(db.stakes[k].(state := Unstaking, version := db.stakes[k].version + 1))
          && after == db.(stakes := db.stakes[k := reply.row]))
    && (k in db.stakes && (db.stakes[k].state == Unstaking || db.stakes[k].state == Withdrawn) ==>
          reply == Position(db.stakes[k]) && after == db)
    && (k in db.stakes && (db.stakes[k].state == Pending || db.stakes[k].state == Delegating || db.stakes[k].state == Failed) ==>
          reply == Failure(InvalidStateTransition) && after == db)
  }

  /** A second request returns what the first one did and changes nothing. */
  lemma UnstakedTwice(db: Tables, k: nat, accepts: bool, again: bool)
    requires Unstaked(db, k, accepts).1.Position?
    ensures Unstaked(Unstaked(db, k, accepts).0, k, again) == Unstaked(db, k, accepts)
  {
  }

  // ---- CreateOrUpdateBalance -----------------------------------------------------

  function Deposited(db: Tables, a: Account, available: int): (Tables, Option<Error>) {
    if available < 0 then (db, Some(ConstraintViolation))
    else if a !in db.balances then (db.(balances := db.balances[a := BalanceRow(available, 0, 0, 1)]), None)
    else
      var row := db.balances[a];
      (db.(balances := db.balances[a := row.(available := available, version := row.version + 1)]), None)
  }

  /** A deposit seeds an absent row at version 1 or sets available in the stored one, keeping
      what is pending and staked; a negative amount is refused; no other row changes. */
  lemma DepositedMeans(db: Tables, a: Account, available: int)
    ensures var (after, err) := Deposited(db, a, available);
            && (err.None? <==> available >= 0) && (err.Some? ==> after == db)
            && after.stakes == db.stakes && after.rewards == db.rewards
            && (forall b :: b != a ==> (b in after.balances <==> b in db.balances)
                                       && (b in db.balances ==> after.balances[b] == db.balances[b]))
            && (err.None? ==> a in after.balances && after.balances[a].available == available)
            && (err.None? && a !in db.balances ==>
                  after.balances[a].pending == 0 && after.balances[a].staked == 0 && after.balances[a].version == 1)
            && (err.None? && a in db.balances ==>
                  && after.balances[a].pending == db.balances[a].pending && after.balances[a].staked == db.balances[a].staked
                  && after.balances[a].version == db.balances[a].version + 1)
  {
  }
}
