/** The system around one call: its repositories and provider, and every other operation,
    which may take any steps between two calls of the one at hand.  The protocol state
    kept here always mirrors the tables and is always reached by a run, so the theorems
    about runs hold of the tables. */
module Worlds {
  import opened Rows
  import opened Protocol
  import opened Lifecycle
  import opened History
  import opened Repositories
  import opened Calls
  import opened Sequential

  /** One entry of the provider's answer; `date` is `None` when it does not parse. */
  datatype RewardEntry = RewardEntry(amount: int, date: Option<nat>)

  /** The custodian's answers, by client reference or provider reference. */
  datatype Script = Script(
    stakeBook: nat -> Answer,
    unstakeBook: string -> bool,
    statusBook: string -> ProviderStatus,
    rewardBook: string -> seq<RewardEntry>)

  /** The custodian: answers anything, unless scripted.  `asked` are the orders it was given. */
  class Provider {
    const scripted: bool
    const script: Script
    const tape: Tape
    ghost var asked: seq<ProviderCall>

    constructor (scripted: bool, script: Script, tape: Tape)
      ensures this.scripted == scripted && this.script == script && this.tape == tape && asked == []
    {
      this.scripted, this.script, this.tape := scripted, script, tape;
      asked := [];
    }

    method Stake(asset: string, amount: int, clientRef: nat) returns (answer: Answer)
      modifies this`asked, tape
      ensures asked == old(asked) + [AskedToStake(clientRef, asset, amount)]
      ensures tape.count == old(tape.count) + 1 && tape.last == Made(OrderStake(asset, amount, clientRef), answer)
      ensures answer.Accepted? || answer.Refused?
      ensures scripted ==> answer == StakeAnswer(script.stakeBook(clientRef))
    {
      var accepts: bool, first: string, second: string := *, *, *;
      answer := if scripted then StakeAnswer(script.stakeBook(clientRef)) else if accepts then Accepted(first, second) else Refused(first);
      asked := asked + [AskedToStake(clientRef, asset, amount)];
      tape.Record(Made(OrderStake(asset, amount, clientRef), answer));
    }

    method Unstake(providerRef: string) returns (answer: Answer)
      modifies this`asked, tape
      ensures asked == old(asked) + [AskedToUnstake(providerRef)]
      ensures tape.count == old(tape.count) + 1 && tape.last == Made(OrderUnstake(providerRef), answer)
      ensures answer == Fine || answer == Fault
      ensures scripted ==> (answer == Fine <==> script.unstakeBook(providerRef))
    {
      var accepts: bool := *;
      answer := if (if scripted then script.unstakeBook(providerRef) else accepts) then Fine else Fault;
      asked := asked + [AskedToUnstake(providerRef)];
      tape.Record(Made(OrderUnstake(providerRef), answer));
    }

    method GetStakeStatus(providerRef: string) returns (answer: Answer)
      modifies tape
      ensures tape.count == old(tape.count) + 1 && tape.last == Made(QueryStatus(providerRef), answer)
      ensures answer.Reported? || answer == Fault
      ensures scripted ==> answer == Reported(script.statusBook(providerRef))
    {
      var fault: bool, status: ProviderStatus := *, *;
      answer := if scripted then Reported(script.statusBook(providerRef)) else if fault then Fault else Reported(status);
      tape.Record(Made(QueryStatus(providerRef), answer));
    }

    method GetRewards(providerRef: string) returns (entries: seq<RewardEntry>, err: Option<Error>)
      ensures scripted ==> err.None? && entries == script.rewardBook(providerRef)
    {
      if scripted { return script.rewardBook(providerRef), None; }
      var fault: bool, any: seq<RewardEntry> := *, *;
      if fault { return [], Some(ProviderError); }
      return any, None;
    }
  }

  /** `states` are the states the events lead through, from the empty system. */
  ghost predicate IsRun(states: seq<State>, events: seq<Event>) {
    && |states| == |events| + 1
    && states[0] == Empty()
    && forall n {:trigger events[n]} :: 0 <= n < |events| ==> states[n + 1] == Step(states[n], events[n])
  }

  lemma {:induction false} RunReaches(states: seq<State>, events: seq<Event>)
    requires IsRun(states, events)
    ensures states[|events|] == Run(events)
  {
    if events != [] {
      var n := |events| - 1;
      RunReaches(states[..n + 1], events[..n]);
      assert states[n + 1] == Step(states[n], events[n]);
    }
  }

  lemma RunExtends(states: seq<State>, events: seq<Event>, e: Event)
    requires IsRun(states, events)
    ensures IsRun(states + [Step(states[|events|], e)], events + [e])
  {
  }

  /** Rows satisfy the CHECK constraint and sit under their primary key. */
  ghost predicate Sane(db: Tables) {
    (forall a :: a in db.balances ==> NonNegative(db.balances[a])) && Keyed(db.stakes)
  }

  lemma SaneEffect(db: Tables, i: nat, op: Op, answer: Answer)
    requires Sane(db)
    ensures Sane(Affect(db, Decide(db, i, op, answer).effect))
  {
    match op
    case Create(req, pc) => var _ := NextCreate(db, i, req, pc, answer);
    case Unstake(k, pc) => var _ := NextUnstake(db, k, pc, answer);
    case SetBalance(a, x, pc) => var _ := NextSet(db, a, x, pc, answer);
    case Reconcile(st, pc) => var _ := NextReconcile(db, st, pc, answer);
    case Credit(_, _, _, _, _) => var _ := NextCredit(db, i, op, answer);
  }

  lemma SaneStep(s: State, e: Event)
    requires Sane(s.db)
    ensures Sane(Step(s, e).db)
  {
    if e.Advance? && e.op < |s.ops| { SaneEffect(s.db, e.op, s.ops[e.op], e.answer); }
  }

  /** No stake disappears and none changes owner, amount or key. */
  ghost predicate Kept(before: map<nat, StakeRow>, after: map<nat, StakeRow>) {
    forall k :: k in before ==> k in after && SameIdentity(before[k], after[k])
  }

  function OrdersAfter(asked: seq<ProviderCall>, effect: Effect): seq<ProviderCall> {
    if effect.Ask? then asked + [effect.call] else asked
  }

  class World {
    const tape: Tape
    const balances: BalanceRepo
    const stakes: StakeRepo
    const rewards: RewardRepo
    const provider: Provider
    const quiet: bool
    var sys: State
    ghost var states: seq<State>
    ghost var trace: seq<Event>

    /** The protocol state is reached by the run so far. */
    ghost predicate Running()
      reads this
    {
      && IsRun(states, trace) && sys == states[|trace|] && Sane(sys.db)
      && balances.reliable == stakes.reliable == rewards.reliable == provider.scripted == quiet
      && balances.tape == stakes.tape == rewards.tape == provider.tape == tape
    }

    /** The tables as the repositories store them. */
    ghost function Db(): Tables
      reads this, balances, stakes, rewards
    {
      Tables(balances.rows, stakes.rows, rewards.rows)
    }

    /** Tables and orders are those of the run, and every call made is a step of it. */
    ghost predicate Valid()
      reads this, balances, stakes, rewards, provider, tape
    {
      Running() && sys.db == Db() && provider.asked == sys.asked && tape.count == 0
    }

    /** An empty system; in a quiet one nothing interferes and no call fails. */
    constructor (quiet: bool, script: Script)
      ensures Valid() && trace == [] && this.quiet == quiet && provider.script == script
      ensures fresh(balances) && fresh(stakes) && fresh(rewards) && fresh(provider) && fresh(tape)
    {
      var recorder := new Tape();
      tape := recorder;
      balances := new BalanceRepo(quiet, recorder);
      stakes := new StakeRepo(quiet, recorder);
      rewards := new RewardRepo(quiet, recorder);
      provider := new Provider(quiet, script, recorder);
      this.quiet := quiet;
      sys, states, trace := Empty(), [Empty()], [];
    }

    /** Every theorem about runs applies to the tables. */
    lemma Reached()
      requires Valid()
      ensures sys == Run(trace) && Db() == Run(trace).db
    {
      RunReaches(states, trace);
    }

    /** Stakes sit under their ids. */
    lemma Identified()
      requires Valid()
      ensures Keyed(Db().stakes)
    {
    }

    /** The id the next operation draws is not in use. */
    lemma NextIdFree()
      requires Valid()
      ensures forall k :: k in Db().stakes ==> k < |sys.ops|
    {
      Reached();
      StakesOk(trace);
      IdsDrawn(Run(trace));
    }

    /** Any other operations take any number of steps; those in [lo, hi) are at rest. */
    method Interfere(lo: nat, hi: nat)
      requires Valid() && hi <= |sys.ops|
      modifies this, balances`rows, stakes`rows, rewards`rows, provider`asked
      ensures Valid() && old(trace) <= trace
      ensures |sys.ops| >= old(|sys.ops|) && forall i :: lo <= i < hi ==> sys.ops[i] == old(sys.ops)[i]
      ensures Kept(old(sys.db.stakes), sys.db.stakes)
      ensures quiet ==> sys == old(sys) && trace == old(trace)
    {
      if quiet { return; }
      ghost var start := sys;
      ghost var taken: seq<Event> := [];
      Reached();
      StakesOk(trace);
      var wanted: seq<Event> := *;
      for n := 0 to |wanted|
        invariant Running() && old(trace) <= trace
        invariant sys == RunFrom(start, taken)
        invariant |sys.ops| >= |start.ops| && forall i :: lo <= i < hi ==> sys.ops[i] == start.ops[i]
      {
        var e := wanted[n];
        if !(e.Advance? && lo <= e.op < hi) {
          RunExtends(states, trace, e);
          SaneStep(sys, e);
          OpsGrow(sys, e);
          assert (taken + [e])[..|taken|] == taken;
          sys := Step(sys, e);
          taken := taken + [e];
          states, trace := states + [sys], trace + [e];
        }
      }
      StakesDescend(start, taken);
      balances.rows, stakes.rows, rewards.rows := sys.db.balances, sys.db.stakes, sys.db.rewards;
      provider.asked := sys.asked;
    }

    /** A new operation enters the system. */
    method Begin(call: Call, ghost op: Op) returns (i: nat)
      requires Valid() && Start(sys.db, call) == Some(op)
      modifies this
      ensures Valid() && trace == old(trace) + [Event.Begin(call)]
      ensures i == old(|sys.ops|) && sys.ops == old(sys.ops) + [op] && sys.db == old(sys.db)
    {
      i := |sys.ops|;
      var e := Event.Begin(call);
      RunExtends(states, trace, e);
      sys := Step(sys, e);
      states, trace := states + [sys], trace + [e];
    }

    /** Exactly one call was made since the last step: the next call of operation `i`, with its
        very arguments, and `answer` is what it got. */
    method Tick(i: nat, answer: Answer, ghost turn: Turn)
      requires Running() && i < |sys.ops| && turn == Decide(sys.db, i, sys.ops[i], answer)
      requires tape.count == 1 && tape.last == Made(NextCall(i, sys.ops[i]), answer)
      requires Db() == Affect(sys.db, turn.effect) && provider.asked == OrdersAfter(sys.asked, turn.effect)
      modifies this, tape
      ensures Valid() && trace == old(trace) + [Advance(i, answer)]
      ensures sys.ops == old(sys.ops)[i := turn.op]
    {
      var e := Advance(i, answer);
      RunExtends(states, trace, e);
      SaneStep(sys, e);
      sys := Step(sys, e);
      states, trace := states + [sys], trace + [e];
      tape.count := 0;
    }

    method TickCreate(i: nat, ghost req: Request, ghost pc: CreatePc, answer: Answer)
      requires Running() && i < |sys.ops| && sys.ops[i] == Create(req, pc)
      requires Db() == Affect(sys.db, NextCreate(sys.db, i, req, pc, answer).1)
      requires provider.asked == OrdersAfter(sys.asked, NextCreate(sys.db, i, req, pc, answer).1)
      requires tape.count == 1 && tape.last == Made(CreateCall(i, req, pc), answer)
      modifies this, tape
      ensures Valid() && old(trace) <= trace
      ensures sys.ops == old(sys.ops)[i := Create(req, NextCreate(old(sys.db), i, req, pc, answer).0)]
    {
      ghost var (next, effect, skip) := NextCreate(sys.db, i, req, pc, answer);
      Tick(i, answer, Turn(Create(req, next), effect, skip));
    }

    method TickUnstake(i: nat, ghost k: nat, ghost pc: UnstakePc, answer: Answer)
      requires Running() && i < |sys.ops| && sys.ops[i] == Unstake(k, pc)
      requires Db() == Affect(sys.db, NextUnstake(sys.db, k, pc, answer).1)
      requires provider.asked == OrdersAfter(sys.asked, NextUnstake(sys.db, k, pc, answer).1)
      requires tape.count == 1 && tape.last == Made(UnstakeCall(k, pc), answer)
      modifies this, tape
      ensures Valid() && old(trace) <= trace
      ensures sys.ops == old(sys.ops)[i := Unstake(k, NextUnstake(old(sys.db), k, pc, answer).0)]
    {
      ghost var (next, effect) := NextUnstake(sys.db, k, pc, answer);
      Tick(i, answer, Turn(Unstake(k, next), effect, None));
    }

    method TickSet(i: nat, ghost a: Account, ghost x: int, ghost pc: SetPc, answer: Answer)
      requires Running() && i < |sys.ops| && sys.ops[i] == SetBalance(a, x, pc)
      requires Db() == Affect(sys.db, NextSet(sys.db, a, x, pc, answer).1)
      requires provider.asked == sys.asked
      requires tape.count == 1 && tape.last == Made(SetCall(a, x, pc), answer)
      modifies this, tape
      ensures Valid() && old(trace) <= trace
      ensures sys.ops == old(sys.ops)[i := SetBalance(a, x, NextSet(old(sys.db), a, x, pc, answer).0)]
    {
      ghost var (next, effect) := NextSet(sys.db, a, x, pc, answer);
      Tick(i, answer, Turn(SetBalance(a, x, next), effect, None));
    }

    method TickReconcile(i: nat, ghost st: StakeRow, ghost pc: ReconcilePc, answer: Answer)
      requires Running() && i < |sys.ops| && sys.ops[i] == Reconcile(st, pc)
      requires Db() == Affect(sys.db, NextReconcile(sys.db, st, pc, answer).1)
      requires provider.asked == sys.asked
      requires tape.count == 1 && tape.last == Made(ReconcileCall(st, pc), answer)
      modifies this, tape
      ensures Valid() && old(trace) <= trace
      ensures sys.ops == old(sys.ops)[i := Reconcile(st, NextReconcile(old(sys.db), st, pc, answer).0)]
    {
      ghost var (next, effect, skip) := NextReconcile(sys.db, st, pc, answer);
      Tick(i, answer, Turn(Reconcile(st, next), effect, skip));
    }

    method TickCredit(i: nat, ghost op: Op, answer: Answer)
      requires Running() && i < |sys.ops| && sys.ops[i] == op && op.Credit?
      requires Db() == Affect(sys.db, NextCredit(sys.db, i, op, answer).1)
      requires provider.asked == sys.asked
      requires tape.count == 1 && tape.last == Made(CreditCall(i, op.stake, op.account, op.amount, op.date, op.dpc), answer)
      modifies this, tape
      ensures Valid() && old(trace) <= trace
      ensures sys.ops == old(sys.ops)[i := op.(dpc := NextCredit(old(sys.db), i, op, answer).0)]
    {
      ghost var (next, effect, skip) := NextCredit(sys.db, i, op, answer);
      Tick(i, answer, Turn(op.(dpc := next), effect, skip));
    }
  }

  lemma OpsGrow(s: State, e: Event)
    ensures |Step(s, e).ops| >= |s.ops|
    ensures forall i :: 0 <= i < |s.ops| && !(e.Advance? && e.op == i) ==> Step(s, e).ops[i] == s.ops[i]
  {
  }
}
