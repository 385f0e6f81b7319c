/** A run without slashing on which the rate falls: rewards raise it to 1.5, and the last tokens are unstaked. */
module FallenRun {
  import opened Wrappers
  import opened Sums
  import opened FixedPoint
  import opened Delegation
  import opened PendingEpoch
  import opened HubTypes
  import opened Handlers
  import opened World
  import opened Runs
  import opened Reachable
  import opened SlashFreeRuns
  import opened CalmRuns
  import opened Liveness
  import opened Theorems
  import opened LevelWorlds
  import opened RateFalls
  import D = DoubledWithdrawal

  const RAISED: nat := 3 * ONE / 2

  // ---------------------------------------------------------------- the states of the run

  /** On top of 14 coins staked for as many tokens, 7 coins of rewards are restaked. */
  ghost function Restaked(): World {
    var w := D.Staked14();
    World(w.hub.(state := w.hub.state.(totalStakedAmount := 21, lstExchangeRate := RAISED),
                 pending := PendingDelegation(1, 0, 21, 0)),
          w.chain.(bank := 21, queue := [Delegate("validator", 14), Delegate("validator", 7)]),
          w.books.(deposited := 21))
  }

  ghost function Delegated21(): World {
    var w := Restaked();
    w.(chain := w.chain.(height := 1, nanos := 10 * NANOS_PER_SECOND, bank := 0, delegated := map["validator" := 21],
                         queue := []))
  }

  ghost function BatchIsDue(): World {
    var w := Delegated21();
    w.(chain := w.chain.(height := 2, nanos := 30 * NANOS_PER_SECOND))
  }

  // ---------------------------------------------------------------- the steps

  ghost function Rewards(): Step { Tx(SoleSight(0, 14, 21), Info("rewards", [Coin("ubbn", 7)]),
                                      ExecuteMsg.StakeRewards) }

  ghost function Unstakes(): Step { Tx(SoleSight(21, 14, 0), Info("ada", []), Unstake(14)) }

  lemma NothingHeld(w: World, q: Queries)
    requires q.delegations == []
    ensures CheckedState(w.hub, EnvOf(w.chain), q) == Ok(w.hub.state)
    ensures LoweredByCheck(w.hub, EnvOf(w.chain), q) == 0
  {
  }

  lemma RateOfRewards()
    ensures FromRatio(21, 14) == RAISED
    ensures UpdatePending(PendingDelegation(1, 0, 14, 0), 0, 7, 0) == Ok(PendingDelegation(1, 0, 21, 0))
  {
  }

  lemma Restaking()
    requires Calm(D.Staked14())
    ensures Possible(D.Staked14(), Rewards())
    ensures Next(D.Staked14(), Rewards()) == Restaked()
  {
    hide UpdatePending, Delegations, DelegateMessages, Payment, Calm, Sees, CheckedState, LoweredByCheck, FromRatio,
         Sum, Totals, UnstakedFrom, MintAmount, Staked, BurnTokens;
    var w, step := D.Staked14(), Rewards();
    OneCoin(7);
    SoleDelegation("validator", 0, 7);
    SoleSightIsTrue(w.chain, 0, 21);
    assert Possible(w, step);
    StakeSucceedsIff(w, step.q, step.info, step.msg);
    StakeIsExecuted(w.hub, EnvOf(w.chain), step.q, step.info, step.msg);
    assert EnvOf(w.chain) == Env(0, 0);
    hide Execute;
    var o := RewardsOutcome();
    DeliverQueued(World(o.ledger, Funded(w, step.info), Booked(w, step.q, step.info, step.msg, o.ledger)), step.q,
                  o.messages);
    NothingHeld(w, step.q);
  }

  lemma RewardsOutcome() returns (o: Outcome)
    requires Staked(D.Staked14().hub, Env(0, 0), Rewards().q, Rewards().info, StakeType.StakeRewards).Ok?
    ensures Staked(D.Staked14().hub, Env(0, 0), Rewards().q, Rewards().info, StakeType.StakeRewards) == Ok(o)
    ensures o == Outcome(Restaked().hub, [Delegate("validator", 7)])
  {
    hide UpdatePending, Delegations, DelegateMessages, CheckedState, FromRatio, Sum, Totals, UnstakedFrom, Staked;
    var st, payment, minted, queued;
    o, st, payment, minted, queued :=
      StakeEffect(D.Staked14().hub, Env(0, 0), Rewards().q, Rewards().info, StakeType.StakeRewards);
    NothingHeld(D.Staked14(), Rewards().q);
    OneCoin(7);
    SoleDelegation("validator", 0, 7);
    RateOfRewards();
  }

  lemma Passing()
    ensures Next(Restaked(), NextBlock(10 * NANOS_PER_SECOND)) == Delegated21()
    ensures Next(Delegated21(), NextBlock(20 * NANOS_PER_SECOND)) == BatchIsDue()
  {
    hide Drain, Epoch;
    EpochOf(1, 0, 0);
    EpochOf(1, 1, 1);
    EpochOf(1, 2, 2);
    DrainTwo(Restaked().chain, Delegate("validator", 14), Delegate("validator", 7));
    DrainNothing(Delegated21().chain);
    assert map[]["validator" := 14]["validator" := 21] == map["validator" := 21];
  }

  lemma DrainNothing(c: Chain)
    ensures Drain(c, []) == c
  {
  }

  lemma RunToStaked() returns (steps: seq<Step>)
    ensures Start(D.NewHub()) && Run(D.NewHub(), steps, D.Staked14()) && Calm(D.Staked14())
    ensures forall s | s in steps :: CalmStep(1, s)
  {
    hide Start, Possible, Next, Calm, Run;
    D.HubIsNew();
    D.AdaStakes();
    steps := [D.TheyAreNamed()] + [D.Ada()];
    RunStep(D.NewHub(), [D.TheyAreNamed()], D.NamedHub(), D.Ada());
    ReachableIsCalm(D.NewHub(), steps, D.Staked14());
  }

  lemma RunToDue() returns (steps: seq<Step>)
    ensures Start(D.NewHub()) && Run(D.NewHub(), steps, BatchIsDue())
    ensures forall s | s in steps :: CalmStep(1, s)
  {
    hide Start, Possible, Next, Calm, Run;
    var s := RunToStaked();
    Restaking();
    Passing();
    AnyBlockIsPossible(Restaked(), 10 * NANOS_PER_SECOND);
    AnyBlockIsPossible(Delegated21(), 20 * NANOS_PER_SECOND);
    RunStep(D.NewHub(), s, D.Staked14(), Rewards());
    s := s + [Rewards()];
    RunStep(D.NewHub(), s, Restaked(), NextBlock(10 * NANOS_PER_SECOND));
    s := s + [NextBlock(10 * NANOS_PER_SECOND)];
    RunStep(D.NewHub(), s, Delegated21(), NextBlock(20 * NANOS_PER_SECOND));
    steps := s + [NextBlock(20 * NANOS_PER_SECOND)];
  }

  // ---------------------------------------------------------------- the fall

  lemma WorthOfAll(rate: nat)
    requires rate >= ONE && Slashing.Backed(rate, 21, 14)
    ensures 14 <= DecimalMultiplication(14, rate) <= 21
  {
    MultiplicationBounds(14, rate);
  }

  lemma UnstakeGoesThrough()
    requires Calm(BatchIsDue())
    ensures Possible(BatchIsDue(), Unstakes()) && GoesThrough(BatchIsDue(), Unstakes())
    ensures SumValues(BatchIsDue().chain.delegated) == 21
  {
    hide Transact, SoundFor, SlashFreeFor, OnPace, Sees, SumValues, CheckedState, Sum, Totals, DecimalMultiplication;
    var w, step := BatchIsDue(), Unstakes();
    SoleSightIsTrue(w.chain, 21, 0);
    SoleUndelegation("validator", 21, 21);
    assert Possible(w, step);
    var rate := UnstakeSucceedsIff(w, step.q, step.info, step.msg);
    SeesOwnBalance(w, step.q);
    CheckKeepsSlashFree(w, w.hub.currentBatch, step.q, w.hub.state.(lstExchangeRate := rate));
    CoveredRate(w.(hub := w.hub.(state := w.hub.state.(lstExchangeRate := rate))), 14);
    WorthOfAll(rate);
  }

  lemma CoveredRate(w: World, tokens: nat)
    requires SlashFreeFor(w, tokens)
    ensures w.hub.state.lstExchangeRate >= ONE
    ensures Slashing.Backed(w.hub.state.lstExchangeRate, w.hub.state.totalStakedAmount, tokens)
  {
    hide WithinReach;
  }

  lemma LastUnstakeLowers()
    requires SumValues(BatchIsDue().chain.delegated) == 21
    ensures Lowers(BatchIsDue(), Unstakes())
  {
    hide SumValues;
  }

  lemma LastUnstakeSetsRate()
    requires Calm(BatchIsDue())
    ensures Possible(BatchIsDue(), Unstakes()) && BatchIsDue().chain.epochLength > 0
    ensures BatchIsDue().chain.epochOrigin <= BatchIsDue().chain.height
    ensures Next(BatchIsDue(), Unstakes()).hub.state.lstExchangeRate == ONE
    ensures BatchIsDue().hub.state.lstExchangeRate == RAISED && Tokens(BatchIsDue()) == 14
  {
    hide Next, Possible, Calm, GoesThrough, SlashFree, Lowers, SoleSight;
    CalmIsSlashFree(BatchIsDue());
    UnstakeGoesThrough();
    LastUnstakeLowers();
    RateFallsIff(BatchIsDue(), Unstakes());
  }

  lemma UnstakeIsCalm()
    ensures CalmStep(1, Unstakes()) && D.NewHub().chain.epochLength == 1
  {
  }

  /** A calm run from instantiation whose last step, an unstake of all 14 tokens, sets a rate of 1.5 to 1. */
  lemma RateFallsToOne() returns (steps: seq<Step>, end: World)
    ensures Start(D.NewHub()) && Run(D.NewHub(), steps + [Unstakes()], end)
    ensures Run(D.NewHub(), steps, BatchIsDue()) && Calm(BatchIsDue()) && Calm(end)
    ensures forall s | s in steps + [Unstakes()] :: CalmStep(1, s)
    ensures BatchIsDue().hub.state.lstExchangeRate == RAISED && Tokens(BatchIsDue()) == 14
    ensures end.hub.state.lstExchangeRate == ONE
  {
    hide Start, Run, Next, Possible, Calm, CalmStep, BatchIsDue, Unstakes, D.NewHub, Tokens, RAISED, ONE;
    UnstakeIsCalm();
    steps := RunToDue();
    ReachableIsCalm(D.NewHub(), steps, BatchIsDue());
    LastUnstakeSetsRate();
    end := Next(BatchIsDue(), Unstakes());
    RunStep(D.NewHub(), steps, BatchIsDue(), Unstakes());
    ReachableIsCalm(D.NewHub(), steps + [Unstakes()], end);
  }

  lemma CalmIsSlashFree(w: World)
    requires Calm(w)
    ensures SlashFree(w)
  {
    hide SlashFree, OnPace;
  }
}
