/** Whole runs seen from one stake: what never changes, what never comes back, and which
    repeated requests change nothing. */
module History {
  import opened Rows
  import opened Protocol
  import opened Lifecycle

  /** What a stored stake may have become after any further steps. */
  predicate Descends(x: StakeRow, y: StakeRow) {
    && SameIdentity(x, y)
    && y.version >= x.version
    && (y.version == x.version ==> y == x)
    && (IsTerminal(x.state) ==> y == x)
    && (x.state != Pending ==> y.providerRef == x.providerRef && y.validator == x.validator)
  }

  lemma DescendsOn(x: StakeRow, y: StakeRow, z: StakeRow)
    requires Lockstep(x) && Lockstep(y) && Descends(x, y) && (z == y || Edge(y, z))
    ensures Descends(x, z)
  {
  }

  lemma {:induction false} StakesDescend(s: State, events: seq<Event>)
    requires StakeInv(s)
    ensures StakeInv(RunFrom(s, events))
    ensures forall k :: k in s.db.stakes ==>
              k in RunFrom(s, events).db.stakes && Descends(s.db.stakes[k], RunFrom(s, events).db.stakes[k])
  {
    if events != [] {
      var before, e := events[..|events| - 1], events[|events| - 1];
      StakesDescend(s, before);
      var t := RunFrom(s, before);
      StakeStep(t, e);
      var u := Step(t, e);
      forall k | k in s.db.stakes ensures k in u.db.stakes && Descends(s.db.stakes[k], u.db.stakes[k]) {
        assert RowOk(s.ops, k, s.db.stakes[k]) && RowOk(t.ops, k, t.db.stakes[k]);
        DescendsOn(s.db.stakes[k], t.db.stakes[k], u.db.stakes[k]);
      }
    }
  }

  /** In every run, a stored stake is one of the seven (state, version) pairs, keeps its
      owner, amount and key, never leaves a terminal state, and keeps its provider
      reference once it is set. */
  lemma StakeHistory(before: seq<Event>, after: seq<Event>, k: nat)
    requires k in Run(before).db.stakes
    ensures var x := Run(before).db.stakes[k];
            var t := RunFrom(Run(before), after);
            && Lockstep(x) && x.amount > 0
            && k in t.db.stakes && Descends(x, t.db.stakes[k]) && Lockstep(t.db.stakes[k])
  {
    StakesOk(before);
    StakesDescend(Run(before), after);
    assert RowOk(Run(before).ops, k, Run(before).db.stakes[k]);
    var t := RunFrom(Run(before), after);
    assert RowOk(t.ops, k, t.db.stakes[k]);
  }

  predicate Unstaked(state: StakeState) {
    state == Unstaking || state == Withdrawn
  }

  /** Nothing leads back from UNSTAKING, not even to FAILED, which the domain would allow. */
  lemma UnstakedForever(s: State, events: seq<Event>, k: nat)
    requires StakeInv(s) && k in s.db.stakes && Unstaked(s.db.stakes[k].state)
    ensures k in RunFrom(s, events).db.stakes && Unstaked(RunFrom(s, events).db.stakes[k].state)
  {
    StakesDescend(s, events);
    var t := RunFrom(s, events);
    assert RowOk(s.ops, k, s.db.stakes[k]);
    assert RowOk(t.ops, k, t.db.stakes[k]);
  }

  predicate RepeatedUnstake(op: Op, k: nat) {
    && op.Unstake? && op.stake == k
    && match op.upc
       case ReadStake => true
       case UnstakeDone(Position(st)) => Unstaked(st.state) && st.id == k
       case UnstakeDone(Failure(e)) => e == DatabaseError
       case _ => false
  }

  lemma RepeatedUnstakeTurn(db: Tables, k: nat, pc: UnstakePc, answer: Answer)
    requires k in db.stakes && db.stakes[k].id == k && Unstaked(db.stakes[k].state) && RepeatedUnstake(Unstake(k, pc), k)
    ensures var (next, effect) := NextUnstake(db, k, pc, answer);
            effect == NoEffect && RepeatedUnstake(Unstake(k, next), k)
  {
  }

  /** Once an Unstake of the stake has committed, a later one reads the stake and returns
      it (or fails to read it): it never calls the provider and never writes. */
  lemma {:induction false} UnstakeIdempotent(s: State, i: nat, events: seq<Event>)
    requires StakeInv(s) && i < |s.ops|
    requires s.ops[i].Unstake? && s.ops[i].upc == ReadStake
    requires s.ops[i].stake in s.db.stakes && Unstaked(s.db.stakes[s.ops[i].stake].state)
    ensures var t := RunFrom(s, events);
            && i < |t.ops| && RepeatedUnstake(t.ops[i], s.ops[i].stake)
            && forall answer :: Decide(t.db, i, t.ops[i], answer).effect == NoEffect
  {
    var k, t := s.ops[i].stake, RunFrom(s, events);
    if events != [] {
      var before := events[..|events| - 1];
      UnstakeIdempotent(s, i, before);
      UnstakedRow(s, before, k);
      var e, u := events[|events| - 1], RunFrom(s, before);
      if e.Advance? && e.op == i { RepeatedUnstakeTurn(u.db, k, u.ops[i].upc, e.answer); }
    }
    UnstakedRow(s, events, k);
    forall answer ensures Decide(t.db, i, t.ops[i], answer).effect == NoEffect {
      RepeatedUnstakeTurn(t.db, k, t.ops[i].upc, answer);
    }
  }

  lemma UnstakedRow(s: State, events: seq<Event>, k: nat)
    requires StakeInv(s) && k in s.db.stakes && Unstaked(s.db.stakes[k].state)
    ensures var t := RunFrom(s, events); k in t.db.stakes && t.db.stakes[k].id == k && Unstaked(t.db.stakes[k].state)
  {
    UnstakedForever(s, events, k);
    StakesDescend(s, events);
    var t := RunFrom(s, events);
    assert RowOk(t.ops, k, t.db.stakes[k]);
  }

  // ---- Idempotency keys ----------------------------------------------------------

  ghost predicate UniqueKeys(stakes: map<nat, StakeRow>) {
    forall j, k :: j in stakes && k in stakes && stakes[j].key == stakes[k].key != "" ==> j == k
  }

  predicate PastProvider(pc: CreatePc) {
    pc.MarkFailed? || pc.WriteRollback? || pc.WriteDelegating? || pc.CreateDone?
  }

  /** Each call to `provider.Stake` is for a stored stake whose operation has moved on. */
  ghost predicate AskedOk(s: State) {
    && (forall p :: 0 <= p < |s.asked| && s.asked[p].AskedToStake? ==>
          var k := s.asked[p].stake;
          k < |s.ops| && k in s.db.stakes && s.ops[k].Create? && PastProvider(s.ops[k].cpc))
    && (forall p, q :: 0 <= p < q < |s.asked| && s.asked[p].AskedToStake? && s.asked[q].AskedToStake? ==>
          s.asked[p].stake != s.asked[q].stake)
  }

  ghost predicate KeyInv(s: State) {
    StakeInv(s) && UniqueKeys(s.db.stakes) && AskedOk(s)
  }

  predicate FreshKey(stakes: map<nat, StakeRow>, effect: Effect) {
    effect.AddStake? ==> !KeyTaken(stakes, effect.row.key)
  }

  predicate AsksOnce(i: nat, op: Op, turn: Turn) {
    && (turn.effect.Ask? && turn.effect.call.AskedToStake? ==> turn.effect.call.stake == i && op.Create? && op.cpc.CallStake?)
    && (op.Create? && (op.cpc.CallStake? || PastProvider(op.cpc)) ==> turn.op.Create? && PastProvider(turn.op.cpc))
  }

  lemma CreateAsks(db: Tables, i: nat, req: Request, pc: CreatePc, answer: Answer)
    ensures var (next, effect, skip) := NextCreate(db, i, req, pc, answer);
            FreshKey(db.stakes, effect) && AsksOnce(i, Create(req, pc), Turn(Create(req, next), effect, skip))
  {
  }

  lemma EveryAsk(s: State, i: nat, answer: Answer)
    requires i < |s.ops|
    ensures var turn := Decide(s.db, i, s.ops[i], answer);
            FreshKey(s.db.stakes, turn.effect) && AsksOnce(i, s.ops[i], turn)
  {
    match s.ops[i]
    case Create(req, pc) => CreateAsks(s.db, i, req, pc, answer);
    case _ =>
  }

  lemma KeysAfter(stakes: map<nat, StakeRow>, i: nat, op: Op, effect: Effect)
    requires UniqueKeys(stakes) && LegalEffect(stakes, i, op, effect) && FreshKey(stakes, effect)
    ensures UniqueKeys(StakesAfter(stakes, effect))
  {
  }

  lemma AskedAfter(s: State, i: nat, turn: Turn)
    requires AskedOk(s) && i < |s.ops| && SameCall(s.ops[i], turn.op) && AsksOnce(i, s.ops[i], turn)
    requires s.ops[i].Create? && s.ops[i].cpc.CallStake? ==> i in s.db.stakes
    ensures AskedOk(Commit(s, i, turn))
  {
  }

  lemma KeyStep(s: State, e: Event)
    requires KeyInv(s)
    ensures KeyInv(Step(s, e))
  {
    StakeStep(s, e);
    if e.Advance? && e.op < |s.ops| {
      var i, turn := e.op, Decide(s.db, e.op, s.ops[e.op], e.answer);
      EveryTurn(s, i, e.answer);
      EveryAsk(s, i, e.answer);
      CommitKeeps(s, i, turn);
      KeysAfter(s.db.stakes, i, turn.op, turn.effect);
      assert OpOk(s.db.stakes, s.winners, i, s.ops[i]);
      AskedAfter(s, i, turn);
    }
  }

  lemma {:induction false} KeysOk(events: seq<Event>)
    ensures KeyInv(Run(events))
  {
    if events != [] {
      var before := events[..|events| - 1];
      KeysOk(before);
      KeyStep(Run(before), events[|events| - 1]);
    }
  }

  /** The p-th provider call asked to stake for a request with this key. */
  predicate AskedFor(s: State, p: nat, key: string) {
    && p < |s.asked|
    && s.asked[p].AskedToStake?
    && s.asked[p].stake < |s.ops|
    && s.ops[s.asked[p].stake].Create?
    && s.ops[s.asked[p].stake].req.key == key
  }

  /** Over any interleaving of requests, retries and failures, a non-empty key has at most
      one stake and at most one call of `provider.Stake`. */
  lemma OncePerKey(events: seq<Event>)
    ensures var s := Run(events);
            && UniqueKeys(s.db.stakes)
            && forall p, q, key :: AskedFor(s, p, key) && AskedFor(s, q, key) && key != "" ==> p == q
  {
    KeysOk(events);
    var s := Run(events);
    forall k | k in s.db.stakes ensures s.ops[k].Create? && s.db.stakes[k].key == s.ops[k].req.key {
      assert RowOk(s.ops, k, s.db.stakes[k]);
    }
  }

  predicate Repeated(op: Op, key: string) {
    && op.Create? && op.req.key == key
    && match op.cpc
       case CheckKey => true
       case CreateDone(Position(row)) => row.key == key
       case CreateDone(Failure(e)) => e == DatabaseError
       case _ => false
  }

  lemma RepeatedTurn(db: Tables, i: nat, req: Request, pc: CreatePc, answer: Answer)
    requires KeyTaken(db.stakes, req.key) && Repeated(Create(req, pc), req.key)
    ensures var (next, effect, skip) := NextCreate(db, i, req, pc, answer);
            effect == NoEffect && Repeated(Create(req, next), req.key)
  {
  }

  lemma KeyStays(s: State, events: seq<Event>, key: string)
    requires StakeInv(s) && KeyTaken(s.db.stakes, key)
    ensures KeyTaken(RunFrom(s, events).db.stakes, key)
  {
    StakesDescend(s, events);
    var k :| k in s.db.stakes && s.db.stakes[k].key == key;
    assert k in RunFrom(s, events).db.stakes && RunFrom(s, events).db.stakes[k].key == key;
  }

  /** A request whose key is already stored returns the stored stake (or the failed
      lookup): no row changes and the provider is not called. */
  lemma {:induction false} RepeatIsInert(s: State, i: nat, events: seq<Event>)
    requires StakeInv(s) && i < |s.ops| && s.ops[i].Create? && s.ops[i].cpc == CheckKey
    requires KeyTaken(s.db.stakes, s.ops[i].req.key)
    ensures var t := RunFrom(s, events);
            && i < |t.ops| && t.ops[i].Create? && t.ops[i].req == s.ops[i].req
            && Repeated(t.ops[i], s.ops[i].req.key)
            && forall answer :: Decide(t.db, i, t.ops[i], answer).effect == NoEffect
  {
    var req, t := s.ops[i].req, RunFrom(s, events);
    if events != [] {
      var before := events[..|events| - 1];
      RepeatIsInert(s, i, before);
      KeyStays(s, before, req.key);
      var e, u := events[|events| - 1], RunFrom(s, before);
      if e.Advance? && e.op == i { RepeatedTurn(u.db, i, req, u.ops[i].cpc, e.answer); }
    }
    KeyStays(s, events, req.key);
    forall answer ensures Decide(t.db, i, t.ops[i], answer).effect == NoEffect {
      RepeatedTurn(t.db, i, req, t.ops[i].cpc, answer);
    }
  }
}
