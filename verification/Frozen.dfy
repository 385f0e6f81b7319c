/** Where batches meet, the hub can freeze without any slashing: two batches in one staking epoch take more from
    the total than is left beside the stake still queued, and every slashing check of the epoch panics. */
module FrozenRun {
  import opened Wrappers
  import opened Sums
  import opened FixedPoint
  import opened Delegation
  import opened PendingEpoch
  import opened HubTypes
  import opened Handlers
  import opened World
  import opened Runs
  import opened Reachable
  import opened SlashFreeRuns
  import opened CalmRuns
  import opened StuckRuns
  import opened Liveness
  import opened Theorems
  import opened LevelWorlds
  import opened MeetingBatches

  // ---------------------------------------------------------------- the states of the run

  /** 100 coins are staked in one staking epoch and delegated at its end, */
  ghost function Staked100(e: nat, blocks: nat): World {
    var w := Shortened(e, blocks);
    World(w.hub.(state := w.hub.state.(totalStakedAmount := 100), pending := PendingDelegation(blocks, 0, 100, 0)),
          w.chain.(bank := 100, supply := 100, queue := [Delegate("validator", 100)]),
          w.books.(deposited := 100))
  }

  ghost function Delegated100(e: nat, blocks: nat): World {
    var w := Staked100(e, blocks);
    w.(chain := w.chain.(height := blocks, nanos := blocks * MAX_BLOCK_NANOS, bank := 0,
                         delegated := map["validator" := 100], queue := []))
  }

  /** and 50 more in the next, */
  ghost function Staked50(e: nat, blocks: nat): World {
    var w := Delegated100(e, blocks);
    World(w.hub.(state := w.hub.state.(totalStakedAmount := 150), pending := PendingDelegation(blocks, blocks, 50, 0)),
          w.chain.(bank := 50, supply := 150, queue := [Delegate("validator", 50)]),
          w.books.(deposited := 150))
  }

  /** at whose first block a batch of 100 leaves, */
  ghost function Left100(e: nat, blocks: nat): World {
    var w := Staked50(e, blocks);
    var time := blocks * AVERAGE_BLOCK_TIME;
    World(w.hub.(state := w.hub.state.(totalStakedAmount := 50, lastUnbondedTime := time),
                 currentBatch := CurrentBatch(2, 0),
                 waitList := map[("ada", 1) := 100],
                 history := map[1 := Record(1, time, 100)],
                 pending := PendingDelegation(blocks, blocks, 50, 100)),
          w.chain.(supply := 50, queue := [Delegate("validator", 50), Undelegate("validator", 100)]),
          w.books.(lastBatchHeight := Some(blocks)))
  }

  /** and the last 50 tokens are asked for. */
  ghost function Asked50(e: nat, blocks: nat): World {
    var w := Left100(e, blocks);
    w.(hub := w.hub.(currentBatch := CurrentBatch(2, 50), waitList := map[("ada", 1) := 100, ("ada", 2) := 50]),
       chain := w.chain.(supply := 0))
  }

  // ---------------------------------------------------------------- the steps

  lemma Delegating100(e: nat, blocks: nat) returns (steps: seq<Step>)
    requires blocks > 0 && Level(Staked100(e, blocks))
    ensures Run(Staked100(e, blocks), steps, Delegated100(e, blocks))
    ensures forall s | s in steps :: s == NextBlock(MAX_BLOCK_NANOS)
    ensures Level(Delegated100(e, blocks))
  {
    hide Level, Next, Run, Possible, Epoch;
    var w := Staked100(e, blocks);
    EpochOf(blocks, 0, 0);
    EpochOf(blocks, 0, blocks - 1);
    var head := BlocksRun(w, blocks - 1, MAX_BLOCK_NANOS);
    var mid := Later(w, blocks - 1, MAX_BLOCK_NANOS);
    EpochOfStakeEnds(e, blocks);
    AnyBlockIsPossible(mid, MAX_BLOCK_NANOS);
    RunStep(w, head, mid, NextBlock(MAX_BLOCK_NANOS));
    steps := head + [NextBlock(MAX_BLOCK_NANOS)];
    Delegated100IsLevel(e, blocks);
  }

  lemma EpochOfStakeEnds(e: nat, blocks: nat)
    requires blocks > 0
    ensures Next(Later(Staked100(e, blocks), blocks - 1, MAX_BLOCK_NANOS), NextBlock(MAX_BLOCK_NANOS))
         == Delegated100(e, blocks)
  {
    hide Drain, SumValues, Epoch;
    var mid := Later(Staked100(e, blocks), blocks - 1, MAX_BLOCK_NANOS);
    EpochOf(blocks, 0, blocks - 1);
    EpochOf(blocks, 1, blocks);
    DrainSole(mid.chain, Delegate("validator", 100));
    assert map[]["validator" := 100] == map["validator" := 100];
    assert blocks * MAX_BLOCK_NANOS == (blocks - 1) * MAX_BLOCK_NANOS + MAX_BLOCK_NANOS;
  }

  lemma Delegated100IsLevel(e: nat, blocks: nat)
    requires blocks > 0
    ensures Level(Delegated100(e, blocks))
  {
    var w := Delegated100(e, blocks);
    SoleSightIsTrue(w.chain, 100, 0);
    TracksNothing(w.hub.pending, w.chain, 0);
    hide Tracks, SumValues;
  }

  lemma PendingOfRun(blocks: nat)
    requires blocks > 0
    ensures UpdatePending(PendingDelegation(blocks, 0, 0, 0), 0, 100, 0) == Ok(PendingDelegation(blocks, 0, 100, 0))
    ensures UpdatePending(PendingDelegation(blocks, 0, 100, 0), blocks, 50, 0)
         == Ok(PendingDelegation(blocks, blocks, 50, 0))
    ensures UpdatePending(PendingDelegation(blocks, blocks, 50, 0), blocks, 0, 100)
         == Ok(PendingDelegation(blocks, blocks, 50, 100))
  {
    FixedPoint.Floor(blocks, blocks, 1);
  }

  lemma FirstStakeOf100(e: nat, blocks: nat)
    requires blocks > 0 && Level(Shortened(e, blocks))
    ensures var step := StakeStep(0, 100, "validator", 100);
            Possible(Shortened(e, blocks), step) && Next(Shortened(e, blocks), step) == Staked100(e, blocks)
    ensures Level(Staked100(e, blocks))
  {
    hide Level, Possible, Next, UpdatePending;
    var after := StakeOnNothing(Shortened(e, blocks), "validator", 100);
    PendingOfRun(blocks);
    assert after == Staked100(e, blocks);
  }

  ghost function Stakes50(): Step { Tx(SoleSight(100, 100, 50), Info("ada", [Coin("ubbn", 50)]), Stake) }

  lemma StakeOf50(e: nat, blocks: nat)
    requires blocks > 0 && Level(Delegated100(e, blocks))
    ensures Possible(Delegated100(e, blocks), Stakes50())
    ensures Next(Delegated100(e, blocks), Stakes50()) == Staked50(e, blocks) && Level(Staked50(e, blocks))
  {
    hide UpdatePending, Delegations, DelegateMessages, Payment, Transact, Level, Sees, Sum, Totals;
    var w := Delegated100(e, blocks);
    OneCoin(50);
    SoleDelegation("validator", 100, 50);
    SoleSightIsTrue(w.chain, 100, 50);
    LevelHasEpochs(w);
    var after, payment := LevelStake(w, SoleSight(100, 100, 50), Info("ada", [Coin("ubbn", 50)]));
    PendingOfRun(blocks);
    assert after.chain.queue == [Delegate("validator", 50)];
  }

  ghost function Unstakes(supply: nat, amount: nat): Step {
    Tx(SoleSight(100, supply, 50), Info("ada", []), Unstake(amount))
  }

  lemma BatchOf100(e: nat, blocks: nat)
    requires blocks > 0 && !KeepsApart(e, blocks) && Level(Staked50(e, blocks))
    ensures Possible(Staked50(e, blocks), Unstakes(150, 100))
    ensures Next(Staked50(e, blocks), Unstakes(150, 100)) == Left100(e, blocks) && Level(Left100(e, blocks))
  {
    hide UpdatePending, Undelegations, UndelegateMessages, Transact, Level, Sees, SumValues, Sum, Totals;
    var w := Staked50(e, blocks);
    SoleSightIsTrue(w.chain, 100, 50);
    SoleUndelegation("validator", 100, 100);
    OneForOne(100);
    LevelHasEpochs(w);
    Seconds(blocks);
    assert Due(w);
    assert w.chain.queue[..0] == [] && QueuedStake(w.chain.queue) == 50;
    hide DecimalMultiplication, Due;
    var after, pending := LevelUnstake(w, SoleSight(100, 150, 50), "ada", 100);
    PendingOfRun(blocks);
    assert after.chain.queue == [Delegate("validator", 50), Undelegate("validator", 100)];
  }

  lemma RequestOf50(e: nat, blocks: nat)
    requires blocks > 0 && !KeepsApart(e, blocks) && Level(Left100(e, blocks))
    ensures Possible(Left100(e, blocks), Unstakes(50, 50))
    ensures Next(Left100(e, blocks), Unstakes(50, 50)) == Asked50(e, blocks) && Level(Asked50(e, blocks))
  {
    hide UpdatePending, Undelegations, UndelegateMessages, Transact, Level, Sees, SumValues, Sum, Totals;
    var w := Left100(e, blocks);
    SoleSightIsTrue(w.chain, 100, 50);
    LevelHasEpochs(w);
    Seconds(blocks);
    assert !Due(w);
    var after, pending := LevelUnstake(w, SoleSight(100, 50, 50), "ada", 50);
    assert after == Asked50(e, blocks);
  }

  ghost function Processes(): Step { Tx(SoleSight(100, 0, 50), Info("anyone", []), ProcessUndelegations) }

  /** At the last block of the epoch anyone has the second batch undelegated. */
  lemma Freezing(e: nat, blocks: nat) returns (steps: seq<Step>, end: World)
    requires blocks > 0 && !KeepsApart(e, blocks) && Level(Asked50(e, blocks))
    ensures Run(Asked50(e, blocks), steps, end) && Stuck(end)
    ensures forall s | s in steps :: s == NextBlock(MAX_BLOCK_NANOS) || s == Processes()
  {
    hide Level, Next, Run, Possible, Epoch;
    var w := Asked50(e, blocks);
    var mid := Later(w, blocks - 1, MAX_BLOCK_NANOS);
    EpochOf(blocks, 1, blocks);
    EpochOf(blocks, 1, 2 * blocks - 1);
    var head := BlocksRun(w, blocks - 1, MAX_BLOCK_NANOS);
    LaterIsLevel(w, blocks - 1, MAX_BLOCK_NANOS);
    end := SecondBatchLeaves50(e, blocks);
    RunStep(w, head, mid, Processes());
    steps := head + [Processes()];
  }

  lemma SecondBatchLeaves50(e: nat, blocks: nat) returns (end: World)
    requires blocks > 0 && !KeepsApart(e, blocks) && Level(Later(Asked50(e, blocks), blocks - 1, MAX_BLOCK_NANOS))
    ensures var mid := Later(Asked50(e, blocks), blocks - 1, MAX_BLOCK_NANOS);
            && mid.chain.epochLength > 0 && mid.chain.epochOrigin <= mid.chain.height
            && Possible(mid, Processes()) && Next(mid, Processes()) == end
    ensures Stuck(end)
  {
    hide Transact, Level, Sees, SumValues, Sum, Totals, Undelegations;
    var mid := Later(Asked50(e, blocks), blocks - 1, MAX_BLOCK_NANOS);
    assert mid.chain.nanos == (2 * blocks - 1) * MAX_BLOCK_NANOS;
    Seconds(2 * blocks - 1);
    assert Due(mid);
    SoleSightIsTrue(mid.chain, 100, 50);
    SoleUndelegation("validator", 100, 50);
    OneForOne(50);
    var queue := [Delegate("validator", 50), Undelegate("validator", 100)];
    assert queue[..1] == [queue[0]] && queue[..1][..0] == [];
    assert QueuedStake(queue) == 50;
    hide DecimalMultiplication, Due, QueuedStake;
    end := LevelProcess(mid, SoleSight(100, 0, 50), "anyone");
  }

  lemma RunToAsked(e: nat, blocks: nat) returns (steps: seq<Step>)
    requires 0 < blocks * AVERAGE_BLOCK_TIME <= MAX_EPOCH_LENGTH && !KeepsApart(e, blocks)
    ensures Start(NewHub(blocks)) && Run(NewHub(blocks), steps, Asked50(e, blocks)) && Level(Asked50(e, blocks))
    ensures forall s | s in steps :: s.Tx? || s == NextBlock(MAX_BLOCK_NANOS)
  {
    hide Level, Next, Run, Possible, Start;
    var head := RunToShortened(e, blocks);
    FirstStakeOf100(e, blocks);
    var first := StakeStep(0, 100, "validator", 100);
    RunStep(NewHub(blocks), head, Shortened(e, blocks), first);
    var delegating := Delegating100(e, blocks);
    RunThen(NewHub(blocks), head + [first], Staked100(e, blocks), delegating, Delegated100(e, blocks));
    var s := head + [first] + delegating;
    StakeOf50(e, blocks);
    RunStep(NewHub(blocks), s, Delegated100(e, blocks), Stakes50());
    s := s + [Stakes50()];
    BatchOf100(e, blocks);
    RunStep(NewHub(blocks), s, Staked50(e, blocks), Unstakes(150, 100));
    s := s + [Unstakes(150, 100)];
    RequestOf50(e, blocks);
    RunStep(NewHub(blocks), s, Left100(e, blocks), Unstakes(50, 50));
    steps := s + [Unstakes(50, 50)];
  }

  /** For every epoch length that does not keep batches apart there is a run of transactions and blocks, without
      slashing or loss, that freezes the hub: by `StuckFails` and `StuckForTheEpoch`, nothing that checks for
      slashing goes through for the rest of the staking epoch. */
  lemma FreezesWithoutSlash(e: nat, blocks: nat) returns (steps: seq<Step>, end: World)
    requires 0 < blocks * AVERAGE_BLOCK_TIME <= MAX_EPOCH_LENGTH && !KeepsApart(e, blocks)
    ensures Start(NewHub(blocks)) && Run(NewHub(blocks), steps, end)
    ensures forall s | s in steps :: s.Tx? || s == NextBlock(MAX_BLOCK_NANOS)
    ensures SlashFree(end) && Stuck(end)
  {
    hide Level, Next, Run, Possible, Start, SlashFree, Stuck;
    var head := RunToAsked(e, blocks);
    var tail;
    tail, end := Freezing(e, blocks);
    RunThen(NewHub(blocks), head, Asked50(e, blocks), tail, end);
    steps := head + tail;
    ReachableIsSlashFree(NewHub(blocks), steps, end);
  }
}
