/** What listing a batch twice can cost: a run in which one user is paid twice and another, with the same claim
    on the same batch, finds the coins gone (contracts/lst_staking_hub/src/state.rs,
    get_finished_amount_for_batches). */
module DoubledWithdrawal {
  import opened Wrappers
  import opened Sums
  import opened FixedPoint
  import opened Delegation
  import opened PendingEpoch
  import opened HubTypes
  import opened Claims
  import opened Release
  import opened Handlers
  import opened World
  import opened Runs
  import opened Reachable
  import opened Liveness
  import opened Theorems
  import opened LevelWorlds

  // ---------------------------------------------------------------- the states of the run

  const PARAMS := Parameters(20, "ubbn", 100, false)

  /** On a chain whose staking epochs have one block. */
  ghost function NamedHub(): World {
    World(Ledger(Config("owner", Some("token"), Some("registry"), Some("rewards")), PARAMS, State(ONE, 0, 0, 0, 0, 0),
                 CurrentBatch(1, 0), map[], map[], PendingDelegation(1, 0, 0, 0)),
          Chain(0, 1, 0, 0, 0, 0, map[], [], 0),
          Books(0, 0, 0, 0, 0, None))
  }

  ghost function NewHub(): World {
    var w := NamedHub();
    w.(hub := w.hub.(config := Config("owner", None, None, None)))
  }

  /** 14 coins are staked. */
  ghost function Staked14(): World {
    var w := NamedHub();
    World(w.hub.(state := w.hub.state.(totalStakedAmount := 14), pending := PendingDelegation(1, 0, 14, 0)),
          w.chain.(bank := 14, supply := 14, queue := [Delegate("validator", 14)]),
          w.books.(deposited := 14))
  }

  ghost function Delegated14(): World {
    var w := Staked14();
    w.(chain := w.chain.(height := 1, nanos := 10 * NANOS_PER_SECOND, bank := 0, delegated := map["validator" := 14],
                         queue := []))
  }

  /** One user asks for 7 of the tokens before the batch is due, */
  ghost function AdaAsked(): World {
    var w := Delegated14();
    w.(hub := w.hub.(waitList := map[("ada", 1) := 7], currentBatch := CurrentBatch(1, 7)),
       chain := w.chain.(supply := 7))
  }

  ghost function BatchIsDue(): World {
    var w := AdaAsked();
    w.(chain := w.chain.(height := 2, nanos := 30 * NANOS_PER_SECOND))
  }

  const BOTH: WaitList := map[("ada", 1) := 7, ("bob", 1) := 7]

  /** and the other for the other 7 when it is. */
  ghost function BobAsked(): World {
    var w := BatchIsDue();
    World(w.hub.(waitList := BOTH, currentBatch := CurrentBatch(2, 0),
                 history := map[1 := UnstakeHistory(1, 30, 14, ONE, ONE, false)],
                 pending := PendingDelegation(1, 2, 0, 14),
                 state := w.hub.state.(totalStakedAmount := 0, lastUnbondedTime := 30)),
          w.chain.(supply := 0, queue := [Undelegate("validator", 14)]),
          w.books.(lastBatchHeight := Some(2)))
  }

  /** The coins are back, and the unstaking period is over. */
  ghost function Returned(): World {
    var w := BobAsked();
    w.(chain := w.chain.(height := 3, nanos := 130 * NANOS_PER_SECOND, bank := 14, delegated := map["validator" := 0],
                         queue := []))
  }

  // ---------------------------------------------------------------- the steps up to the withdrawals

  ghost function TheyAreNamed(): Step { Naming(NewHub(), "token", "registry", "rewards") }

  lemma HubIsNew()
    ensures Start(NewHub()) && Run(NewHub(), [TheyAreNamed()], NamedHub())
  {
    var w := NewHub();
    assert SumValues(w.chain.delegated) == 0;
    assert Instantiate("owner", w.hub.params, 1, 0, EnvOf(w.chain)) == Ok(w.hub);
    hide Next, Possible, Instantiate;
    NamingTakesPlace(w, "token", "registry", "rewards");
    SteppedOnce(w, TheyAreNamed(), NamedHub());
  }

  ghost function Ada(): Step {
    Tx(SoleSight(0, 0, 14), Info("ada", [Coin("ubbn", 14)]), Stake)
  }

  lemma AdaStakes()
    ensures Possible(NamedHub(), Ada()) && Next(NamedHub(), Ada()) == Staked14()
  {
    hide UpdatePending, Delegations, DelegateMessages, Payment, Transact, Level, Sees;
    NewIsLevel(NamedHub());
    OneCoin(14);
    SoleDelegation("validator", 0, 14);
    SoleSightIsTrue(NamedHub().chain, 0, 14);
    var after, payment := LevelStake(NamedHub(), SoleSight(0, 0, 14), Info("ada", [Coin("ubbn", 14)]));
    PendingOfRun();
    assert after.chain.queue == [Delegate("validator", 14)];
  }

  lemma PendingOfRun()
    ensures UpdatePending(PendingDelegation(1, 0, 0, 0), 0, 14, 0) == Ok(PendingDelegation(1, 0, 14, 0))
    ensures UpdatePending(PendingDelegation(1, 0, 14, 0), 2, 0, 14) == Ok(PendingDelegation(1, 2, 0, 14))
  {
  }

  lemma Delegating()
    ensures Next(Staked14(), NextBlock(10 * NANOS_PER_SECOND)) == Delegated14()
    ensures Next(AdaAsked(), NextBlock(20 * NANOS_PER_SECOND)) == BatchIsDue()
    ensures Level(Delegated14()) && Level(BatchIsDue())
  {
    EpochOf(1, 0, 0);
    EpochOf(1, 1, 1);
    EpochOf(1, 2, 2);
    DrainSole(Staked14().chain, Delegate("validator", 14));
    assert map[]["validator" := 14] == map["validator" := 14];
    SoleSightIsTrue(Delegated14().chain, 14, 0);
    TracksNothing(Delegated14().hub.pending, Delegated14().chain, 0);
    TracksNothing(BatchIsDue().hub.pending, BatchIsDue().chain, 0);
    hide Drain, Epoch, Tracks, SumValues;
  }

  ghost function Asks(user: Addr, supply: nat): Step {
    Tx(SoleSight(14, supply, 0), Info(user, []), Unstake(7))
  }

  lemma AdaAsks()
    ensures Possible(Delegated14(), Asks("ada", 14)) && Next(Delegated14(), Asks("ada", 14)) == AdaAsked()
  {
    hide UpdatePending, Undelegations, UndelegateMessages, Transact, Level, Sees;
    Delegating();
    SoleSightIsTrue(Delegated14().chain, 14, 0);
    LevelHasEpochs(Delegated14());
    var after, pending := LevelUnstake(Delegated14(), SoleSight(14, 14, 0), "ada", 7);
  }

  lemma BobAsks()
    ensures Possible(BatchIsDue(), Asks("bob", 7)) && Next(BatchIsDue(), Asks("bob", 7)) == BobAsked()
  {
    hide UpdatePending, Undelegations, UndelegateMessages, Transact, Level, Sees;
    Delegating();
    SoleSightIsTrue(BatchIsDue().chain, 14, 0);
    SoleUndelegation("validator", 14, 14);
    OneForOne(14);
    LevelHasEpochs(BatchIsDue());
    var after, pending := LevelUnstake(BatchIsDue(), SoleSight(14, 7, 0), "bob", 7);
    PendingOfRun();
    assert "ada" != "bob";
    assert after.chain.queue == [Undelegate("validator", 14)];
    assert after.hub.waitList == BOTH;
  }

  ghost function Unbonding(): World {
    var w := Returned();
    w.(chain := w.chain.(bank := 0, unbonding := 14))
  }

  lemma Returning()
    ensures Next(BobAsked(), NextBlock(100 * NANOS_PER_SECOND)) == Unbonding()
    ensures Possible(Unbonding(), Arrive(14)) && Next(Unbonding(), Arrive(14)) == Returned()
  {
    CoinsLeave();
    CoinsArrive();
  }

  lemma CoinsLeave()
    ensures Next(BobAsked(), NextBlock(100 * NANOS_PER_SECOND)) == Unbonding()
  {
    hide Drain, Epoch;
    EpochOf(1, 2, 2);
    EpochOf(1, 3, 3);
    DrainSole(BobAsked().chain, Undelegate("validator", 14));
    assert BobAsked().chain.delegated["validator" := 0] == map["validator" := 0];
  }

  lemma CoinsArrive()
    ensures Possible(Unbonding(), Arrive(14)) && Next(Unbonding(), Arrive(14)) == Returned()
  {
  }

  lemma RunToReturned() returns (steps: seq<Step>)
    ensures Start(NewHub()) && Run(NewHub(), steps, Returned())
  {
    hide Start, Level, Possible, Next;
    HubIsNew();
    AdaStakes();
    Delegating();
    AdaAsks();
    BobAsks();
    Returning();
    RunStep(NewHub(), [TheyAreNamed()], NamedHub(), Ada());
    hide Run;
    AnyBlockIsPossible(Staked14(), 10 * NANOS_PER_SECOND);
    AnyBlockIsPossible(AdaAsked(), 20 * NANOS_PER_SECOND);
    AnyBlockIsPossible(BobAsked(), 100 * NANOS_PER_SECOND);
    var s := [TheyAreNamed()] + [Ada()];
    RunStep(NewHub(), s, Staked14(), NextBlock(10 * NANOS_PER_SECOND));
    s := s + [NextBlock(10 * NANOS_PER_SECOND)];
    RunStep(NewHub(), s, Delegated14(), Asks("ada", 14));
    s := s + [Asks("ada", 14)];
    RunStep(NewHub(), s, AdaAsked(), NextBlock(20 * NANOS_PER_SECOND));
    s := s + [NextBlock(20 * NANOS_PER_SECOND)];
    RunStep(NewHub(), s, BatchIsDue(), Asks("bob", 7));
    s := s + [Asks("bob", 7)];
    RunStep(NewHub(), s, BobAsked(), NextBlock(100 * NANOS_PER_SECOND));
    s := s + [NextBlock(100 * NANOS_PER_SECOND)];
    RunStep(NewHub(), s, Unbonding(), Arrive(14));
    steps := s + [Arrive(14)];
  }

  // ---------------------------------------------------------------- the withdrawals

  const RELEASED: History := map[1 := UnstakeHistory(1, 30, 14, ONE, ONE, true)]

  /** The ledger once the batch is released: its 14 coins are set aside. */
  ghost function Released(): Ledger {
    var l := Returned().hub;
    l.(history := RELEASED, state := l.state.(lastProcessedBatch := 1, unclaimedUnstakedBalance := 14))
  }

  lemma BatchIsReleased()
    ensures Returned().chain.bank - QueuedStake(Returned().chain.queue) == 14
    ensures ReleasePass(Returned().hub.history, 1, 30, 14).0 == 1
    ensures ReleasedLedger(Returned().hub, 1) == Released()
    ensures PassedLedger(Returned()) == Released()
  {
    var history := Returned().hub.history;
    OneForOne(14);
    assert Cost(history[1]) == 14;
    assert CostUpTo(history, 0, 1) == 14;
    assert ReleasePass(history, 2, 30, 0) == (1, 0);
    assert MarkReleased(history, 0, 1) == RELEASED;
  }

  ghost function Withdraws(user: Addr, ids: seq<nat>): Step {
    Tx(SoleSight(0, 0, 14), Info(user, []), WithdrawUnstakedForBatches(ids))
  }

  /** What is left after one user's claim was paid twice: nothing is set aside, and the other's claim is open. */
  ghost function PaidTwice(): World {
    var w := Returned();
    World(Released().(waitList := map[("bob", 1) := 7], state := Released().state.(unclaimedUnstakedBalance := 0)),
          w.chain.(bank := 0),
          w.books.(dust := 1, overpaid := 7, paidOut := 14))
  }

  lemma ClaimsOfBoth()
    ensures Claim(BOTH, RELEASED, "ada", 1) == 7
    ensures Claim(map[("bob", 1) := 7], RELEASED, "bob", 1) == 7
  {
    OneForOne(7);
  }

  lemma AdaWithdraws() returns (o: Outcome)
    requires Sound(Returned())
    ensures var w := Returned();
            && Withdrawn(w.hub, EnvOf(w.chain), SoleSight(0, 0, 14), "ada", Some([1, 1])) == Ok(o)
            && o.messages == [Send("ada", 14)]
    ensures Possible(Returned(), Withdraws("ada", [1, 1]))
  {
    hide SoundFor, Withdrawn, Owed, Repeated, PassedLedger, Ids, TotalClaims, NoRepeatedClaim, QueuedStake, Sees;
    var w := Returned();
    SoleSightIsTrue(w.chain, 0, 14);
    var released := WithdrawOutcome(w, SoleSight(0, 0, 14), "ada", Some([1, 1]));
    BatchIsReleased();
    ListedTwice(BOTH, RELEASED, "ada", 1);
    ClaimsOfBoth();
    o := Withdrawn(w.hub, EnvOf(w.chain), SoleSight(0, 0, 14), "ada", Some([1, 1])).value;
  }

  lemma AdaSucceeds()
    requires Sound(Returned())
    ensures var step := Withdraws("ada", [1, 1]);
            Possible(Returned(), step) && Transact(Returned(), step.q, step.info, step.msg).Ok?
  {
    hide SoundFor, Withdrawn, Possible, Booked;
    var w := Returned();
    var step := Withdraws("ada", [1, 1]);
    var o := AdaWithdraws();
    assert Execute(w.hub, EnvOf(w.chain), step.q, step.info, step.msg) == Ok(o);
    hide Execute;
    DeliverSend(World(o.ledger, Funded(w, step.info), Booked(w, step.q, step.info, step.msg, o.ledger)), step.q, "ada",
                14);
  }

  lemma AdaIsPaidTwice() returns (after: World)
    requires Sound(Returned())
    ensures Possible(Returned(), Withdraws("ada", [1, 1]))
    ensures Transact(Returned(), SoleSight(0, 0, 14), Info("ada", []), WithdrawUnstakedForBatches([1, 1])) == Ok(after)
    ensures after.hub == PaidTwice().hub && after.chain == PaidTwice().chain && after.books.paidOut == 14
  {
    hide SoundFor, Possible, Transact, ReleasePass, CostUpTo, Finished, ListedEntries, Without, Affordable, QueuedStake,
         Booked, ReleasedLedger, PassedLedger, Owed, Repeated, Claim;
    var w := Returned();
    var step := Withdraws("ada", [1, 1]);
    AdaSucceeds();
    var last, released, amount, batches := WithdrawTransaction(w, step.q, step.info, step.msg);
    BatchIsReleased();
    AdaFinishes();
    OnlyBobWaits(batches);
    BooksPaidOut(w, step.q, step.info, step.msg, released);
    after := Transact(w, step.q, step.info, step.msg).value;
  }

  lemma TransactionIsStep(w: World, q: Queries, info: Info, msg: ExecuteMsg, after: World)
    requires w.chain.epochLength > 0 && w.chain.epochOrigin <= w.chain.height
    requires Possible(w, Tx(q, info, msg)) && Transact(w, q, info, msg) == Ok(after)
    ensures Next(w, Tx(q, info, msg)) == after
  {
    hide Transact, Possible;
  }

  lemma AdaFinishes()
    ensures var (amount, batches) := Finished(RELEASED, ListedEntries(BOTH, "ada", [1, 1]));
            amount == 14 && 1 in batches
  {
    hide Finished, ListedEntries, Owed, Repeated;
    FinishedIsOwedAndRepeated(BOTH, RELEASED, "ada", [1, 1]);
    ListedTwice(BOTH, RELEASED, "ada", 1);
    ClaimsOfBoth();
  }

  lemma OnlyBobWaits(batches: seq<nat>)
    requires 1 in batches
    ensures Without(BOTH, "ada", batches) == map[("bob", 1) := 7]
  {
    assert "ada" != "bob";
  }

  lemma BooksPaidOut(w: World, q: Queries, info: Info, msg: ExecuteMsg, after: Ledger)
    ensures forall l :: Booked(w, q, info, msg, l).paidOut == w.books.paidOut
  {
    hide LoweredByCheck, ReleaseDust, Repeated, AskedBatches;
  }

  /** Nobody can withdraw now: whoever is owed something is refused. */
  lemma BobIsRefused(w: World, q: Queries)
    requires Sound(w) && w.hub == PaidTwice().hub && w.chain == PaidTwice().chain && q.balance == 0
    ensures Owed(w.hub.waitList, w.hub.history, "bob", {1}) == 7
    ensures Withdrawn(w.hub, EnvOf(w.chain), q, "bob", Some([1])) == Err(Overflow)
    ensures Withdrawn(w.hub, EnvOf(w.chain), q, "bob", None) == Err(Overflow)
  {
    hide SoundFor, Withdrawn, Owed, Repeated, PassedLedger, TotalClaims, NoRepeatedClaim, QueuedStake, Sees, Ascending;
    NothingToRelease(w);
    ClaimsOfBoth();
    OwedOnOne(w.hub.waitList, RELEASED, "bob", 1);
    var one := WithdrawOutcome(w, q, "bob", Some([1]));
    assert Ids([1]) == {1};
    var all := WithdrawOutcome(w, q, "bob", None);
    AscendingLists(UserBatches(w.hub.waitList, "bob"));
    assert UserBatches(w.hub.waitList, "bob") == {1} by {
      assert ("bob", 1) in w.hub.waitList;
    }
  }

  lemma NothingToRelease(w: World)
    requires w.hub == PaidTwice().hub && w.chain == PaidTwice().chain
    ensures EnvOf(w.chain).time >= w.hub.params.unstakingPeriod && PassedLedger(w) == w.hub
  {
    var l := w.hub;
    assert ReleasePass(l.history, 2, 30, 0) == (1, 0);
    assert CostUpTo(l.history, 1, 1) == 0;
    assert MarkReleased(l.history, 1, 1) == l.history;
  }

  /** A run from instantiation, without slashing or loss, that leaves a user uncovered: two users are owed 7 coins
      each on one released batch, for which 14 are set aside; one lists the batch twice and is paid 14, and
      the other's withdrawal, for its batch or for all it has, fails on a hub that holds nothing. */
  lemma OneUserIsPaidTheOthersCoins() returns (steps: seq<Step>, end: World)
    ensures Start(NewHub()) && Run(NewHub(), steps, Returned()) && Sound(Returned())
    ensures Possible(Returned(), Withdraws("ada", [1, 1])) && end == Next(Returned(), Withdraws("ada", [1, 1]))
    ensures end.books.paidOut == 14 && end.chain.bank == 0 && Sound(end)
    ensures Owed(end.hub.waitList, end.hub.history, "bob", {1}) == 7
    ensures forall q: Queries | q.balance == 0 ::
              && Withdrawn(end.hub, EnvOf(end.chain), q, "bob", Some([1])) == Err(Overflow)
              && Withdrawn(end.hub, EnvOf(end.chain), q, "bob", None) == Err(Overflow)
  {
    hide Start, Run, Sound, Next, Possible, Withdrawn, Owed, Transact;
    steps := RunToReturned();
    ReachableIsSound(NewHub(), steps, Returned());
    end := AdaIsPaidTwice();
    SoundHasEpochs(Returned());
    TransactionIsStep(Returned(), SoleSight(0, 0, 14), Info("ada", []), WithdrawUnstakedForBatches([1, 1]), end);
    StepKeepsSound(Returned(), Withdraws("ada", [1, 1]));
    forall q: Queries | q.balance == 0
      ensures Withdrawn(end.hub, EnvOf(end.chain), q, "bob", Some([1])) == Err(Overflow)
      ensures Withdrawn(end.hub, EnvOf(end.chain), q, "bob", None) == Err(Overflow)
    {
      BobIsRefused(end, q);
    }
    BobIsRefused(end, SoleSight(0, 0, 0));
  }
}
