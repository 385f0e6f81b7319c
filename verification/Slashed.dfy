/** A run to a chain slashed below what is queued to be unstaked, where the first slashing check lowers the total
    below the queued stake and every later one of the staking epoch panics. */
module SlashedRun {
  import opened Wrappers
  import opened Sums
  import opened FixedPoint
  import opened Delegation
  import opened PendingEpoch
  import opened HubTypes
  import opened Handlers
  import opened Slashing
  import opened World
  import opened Runs
  import opened Reachable
  import opened StuckRuns
  import opened Liveness
  import opened LevelWorlds
  import D = DoubledWithdrawal

  // ---------------------------------------------------------------- the states of the run

  ghost function Staked95(): World {
    var w := D.NamedHub();
    World(w.hub.(state := w.hub.state.(totalStakedAmount := 95), pending := PendingDelegation(1, 0, 95, 0)),
          w.chain.(bank := 95, supply := 95, queue := [Delegate("validator", 95)]),
          w.books.(deposited := 95))
  }

  ghost function Delegated95(): World {
    var w := Staked95();
    w.(chain := w.chain.(height := 1, nanos := 30 * NANOS_PER_SECOND, bank := 0, delegated := map["validator" := 95],
                         queue := []))
  }

  ghost function Left15(): World {
    var w := Delegated95();
    World(w.hub.(waitList := map[("ada", 1) := 15], currentBatch := CurrentBatch(2, 0),
                 history := map[1 := UnstakeHistory(1, 30, 15, ONE, ONE, false)],
                 pending := PendingDelegation(1, 1, 0, 15),
                 state := w.hub.state.(totalStakedAmount := 80, lastUnbondedTime := 30)),
          w.chain.(supply := 80, queue := [Undelegate("validator", 15)]),
          w.books.(lastBatchHeight := Some(1)))
  }

  ghost function Staked20(): World {
    var w := Left15();
    World(QueuedBothWays(),
          w.chain.(bank := 20, supply := 100, queue := [Undelegate("validator", 15), Delegate("validator", 20)]),
          w.books.(deposited := 115))
  }

  ghost function Slashed(): World {
    var w := Staked20();
    w.(chain := w.chain.(delegated := map["validator" := 10]))
  }

  // ---------------------------------------------------------------- the steps

  ghost function Stakes(held: nat, supply: nat, amount: nat): Step {
    Tx(SoleSight(held, supply, amount), Info("ada", [Coin("ubbn", amount)]), Stake)
  }

  lemma PendingOfRun()
    ensures UpdatePending(PendingDelegation(1, 0, 0, 0), 0, 95, 0) == Ok(PendingDelegation(1, 0, 95, 0))
    ensures UpdatePending(PendingDelegation(1, 0, 95, 0), 1, 0, 15) == Ok(PendingDelegation(1, 1, 0, 15))
    ensures UpdatePending(PendingDelegation(1, 1, 0, 15), 1, 20, 0) == Ok(PendingDelegation(1, 1, 20, 15))
  {
  }

  lemma FirstStake()
    ensures Possible(D.NamedHub(), Stakes(0, 0, 95)) && Next(D.NamedHub(), Stakes(0, 0, 95)) == Staked95()
  {
    hide UpdatePending, Delegations, DelegateMessages, Payment, Transact, Level, Sees;
    NewIsLevel(D.NamedHub());
    OneCoin(95);
    SoleDelegation("validator", 0, 95);
    SoleSightIsTrue(D.NamedHub().chain, 0, 95);
    var after, payment := LevelStake(D.NamedHub(), SoleSight(0, 0, 95), Info("ada", [Coin("ubbn", 95)]));
    PendingOfRun();
    assert after.chain.queue == [Delegate("validator", 95)];
  }

  lemma Delegating()
    ensures Next(Staked95(), NextBlock(30 * NANOS_PER_SECOND)) == Delegated95()
    ensures Level(Delegated95())
  {
    EpochOf(1, 0, 0);
    EpochOf(1, 1, 1);
    DrainSole(Staked95().chain, Delegate("validator", 95));
    assert map[]["validator" := 95] == map["validator" := 95];
    SoleSightIsTrue(Delegated95().chain, 95, 0);
    TracksNothing(Delegated95().hub.pending, Delegated95().chain, 0);
    hide Drain, Epoch, Tracks, SumValues;
  }

  ghost function Unstakes(): Step { Tx(SoleSight(95, 95, 0), Info("ada", []), Unstake(15)) }

  lemma BatchLeaves()
    ensures Possible(Delegated95(), Unstakes()) && Next(Delegated95(), Unstakes()) == Left15() && Level(Left15())
  {
    hide UpdatePending, Undelegations, UndelegateMessages, Transact, Level, Sees, SumValues, Sum, Totals;
    Delegating();
    SoleSightIsTrue(Delegated95().chain, 95, 0);
    SoleUndelegation("validator", 95, 15);
    OneForOne(15);
    LevelHasEpochs(Delegated95());
    assert Due(Delegated95());
    hide DecimalMultiplication, Due;
    var after, pending := LevelUnstake(Delegated95(), SoleSight(95, 95, 0), "ada", 15);
    PendingOfRun();
    assert after.chain.queue == [Undelegate("validator", 15)];
  }

  lemma SecondStake()
    ensures Possible(Left15(), Stakes(95, 80, 20)) && Next(Left15(), Stakes(95, 80, 20)) == Staked20()
  {
    hide UpdatePending, Delegations, DelegateMessages, Payment, Transact, Level, Sees;
    BatchLeaves();
    LevelHasEpochs(Left15());
    OneCoin(20);
    SoleDelegation("validator", 95, 20);
    SoleSightIsTrue(Left15().chain, 95, 20);
    var after, payment := LevelStake(Left15(), SoleSight(95, 80, 20), Info("ada", [Coin("ubbn", 20)]));
    PendingOfRun();
    assert after.chain.queue == [Undelegate("validator", 15), Delegate("validator", 20)];
  }

  lemma Slashing85()
    ensures Possible(Staked20(), Slash("validator", 85)) && Next(Staked20(), Slash("validator", 85)) == Slashed()
  {
    assert map["validator" := 95]["validator" := 10] == map["validator" := 10];
  }

  lemma RunToSlashed() returns (steps: seq<Step>)
    ensures Start(D.NewHub()) && Run(D.NewHub(), steps, Slashed())
  {
    hide Start, Level, Possible, Next;
    D.HubIsNew();
    FirstStake();
    Delegating();
    BatchLeaves();
    SecondStake();
    Slashing85();
    RunStep(D.NewHub(), [D.TheyAreNamed()], D.NamedHub(), Stakes(0, 0, 95));
    hide Run;
    AnyBlockIsPossible(Staked95(), 30 * NANOS_PER_SECOND);
    var s := [D.TheyAreNamed()] + [Stakes(0, 0, 95)];
    RunStep(D.NewHub(), s, Staked95(), NextBlock(30 * NANOS_PER_SECOND));
    s := s + [NextBlock(30 * NANOS_PER_SECOND)];
    RunStep(D.NewHub(), s, Delegated95(), Unstakes());
    s := s + [Unstakes()];
    RunStep(D.NewHub(), s, Left15(), Stakes(95, 80, 20));
    s := s + [Stakes(95, 80, 20)];
    RunStep(D.NewHub(), s, Staked20(), Slash("validator", 85));
    steps := s + [Slash("validator", 85)];
  }

  /** What the chain answers after the slash. */
  ghost function Sight(): Queries {
    Queries([Coin("ubbn", 10)], 100, 20, [ValidatorResponse(10, "validator")], 0, 0)
  }

  /** A run from instantiation after which one slashing check succeeds, and by `StuckForTheEpoch` no stake,
      unstake, burn or check does for the rest of the epoch. */
  lemma CheckLeavesStuck() returns (steps: seq<Step>, after: World)
    ensures Start(D.NewHub()) && Run(D.NewHub(), steps, Slashed()) && Sound(Slashed())
    ensures Possible(Slashed(), Tx(Sight(), Info("anyone", []), CheckSlashing))
    ensures Transact(Slashed(), Sight(), Info("anyone", []), CheckSlashing) == Ok(after)
    ensures after.hub.state.totalStakedAmount == 15 && QueuedStake(after.chain.queue) == 20
    ensures Sound(after) && Stuck(after)
  {
    hide Start, Run, Sound, Stuck;
    steps := RunToSlashed();
    ReachableIsSound(D.NewHub(), steps, Slashed());
    SightIsTrue();
    after := CheckGoesThrough();
    BecomesStuck(Slashed(), Sight(), Info("anyone", []));
    StepKeepsSound(Slashed(), Tx(Sight(), Info("anyone", []), CheckSlashing));
  }

  lemma SightIsTrue()
    ensures Possible(Slashed(), Tx(Sight(), Info("anyone", []), CheckSlashing))
    ensures Funded(Slashed(), Info("anyone", [])) == Slashed().chain
  {
    SumUpdate(map[], "validator", 10);
    var none: map<Addr, nat> := map[];
    assert SumValues(none) == 0 && none["validator" := 10] == map["validator" := 10];
    assert [Coin("ubbn", 10)][..0] == [];
    assert SumOfDenom([Coin("ubbn", 10)], "ubbn") == 10 && SumOfDenom([], "ubbn") == 0;
  }

  lemma CheckGoesThrough() returns (after: World)
    requires Possible(Slashed(), Tx(Sight(), Info("anyone", []), CheckSlashing))
    ensures Transact(Slashed(), Sight(), Info("anyone", []), CheckSlashing) == Ok(after)
    ensures after.hub.state.totalStakedAmount == 15 && QueuedStake(after.chain.queue) == 20
    ensures GetPending(Slashed().hub.pending, Slashed().chain.height).Ok?
    ensures SlashedBelowQueue(Slashed().hub, EnvOf(Slashed().chain), Sight())
  {
    hide CheckedState, Booked;
    CheckPanicsTheSecondTime();
    assert EnvOf(Slashed().chain) == Env(1, 30);
    after := Transact(Slashed(), Sight(), Info("anyone", []), CheckSlashing).value;
    var queue := [Undelegate("validator", 15), Delegate("validator", 20)];
    assert queue[..1] == [queue[0]] && queue[..1][..0] == [];
  }
}
