/** What follows when the chain is slashed below what is queued to be unstaked: once a check has lowered the
    total below the queued stake, nothing that checks for slashing goes through for the rest of the staking
    epoch, and the total stays. */
module StuckRuns {
  import opened Wrappers
  import opened Sums
  import opened PendingEpoch
  import opened HubTypes
  import opened Handlers
  import opened Slashing
  import opened World
  import opened Runs
  import opened Reachable
  import opened SlashFreeRuns

  /** The total is below what is queued to be staked, on a chain that still holds something. */
  ghost predicate Stuck(w: World) {
    && w.hub.state.totalStakedAmount < QueuedStake(w.chain.queue)
    && SumValues(w.chain.delegated) > 0
  }

  lemma StuckCheckPanics(w: World, q: Queries, balance: nat)
    requires Tracks(w.hub.pending, w.chain) && Stuck(w)
    requires Sees(w.chain, w.hub.params.stakingCoinDenom, q, balance)
    ensures forall waitList, supply ::
              CheckedState(w.hub.(waitList := waitList), EnvOf(w.chain), q.(supply := supply)) == Err(Panic)
  {
  }

  /** Every message that checks for slashing fails, and so does every burn. */
  lemma StuckFails(w: World, q: Queries, info: Info, msg: ExecuteMsg)
    requires Sound(w) && Stuck(w) && Possible(w, Tx(q, info, msg))
    requires ChecksSlashing(w.hub, msg)
    ensures Execute(w.hub, EnvOf(w.chain), q, info, msg).Err?
  {
    hide SoundFor, CheckedState, BatchProcessed, Payment;
    TracksOfSound(w);
    StuckCheckPanics(w, q, Funded(w, info).bank);
    var unlisted := w.hub.(waitList := w.hub.waitList);
    assert unlisted == w.hub && q.(supply := q.supply) == q;
    assert CheckedState(unlisted, EnvOf(w.chain), q.(supply := q.supply)) == Err(Panic);
    match msg
    case Unstake(amount) => assert Unstaked(w.hub, EnvOf(w.chain), q, amount, info.sender, BurnFromFlow).Err?;
    case ReceiveUnstake(sender, amount) => assert Unstaked(w.hub, EnvOf(w.chain), q, amount, sender, BurnFlow).Err?;
    case _ =>
  }

  lemma TracksOfSound(w: World)
    requires Sound(w)
    ensures Tracks(w.hub.pending, w.chain)
  {
    hide Tracks;
  }

  lemma StuckBurnFails(w: World, q: Queries, amount: nat)
    requires Sound(w) && Stuck(w) && Possible(w, TokenBurn(q, amount))
    ensures BurnTokens(w, q, amount).Err?
  {
    hide SoundFor, CheckedState;
    TracksOfSound(w);
    StuckCheckPanics(w, q, w.chain.bank);
    if amount <= w.chain.supply {
      assert CheckedState(w.hub.(waitList := w.hub.waitList), EnvOf(w.chain),
                          q.(supply := w.chain.supply - amount)) == Err(Panic);
      assert w.hub.(waitList := w.hub.waitList) == w.hub;
    }
  }

  /** A check that succeeds on a chain slashed below the queued unstaking leaves the world stuck. */
  lemma BecomesStuck(w: World, q: Queries, info: Info)
    requires Sound(w) && Possible(w, Tx(q, info, CheckSlashing))
    requires GetPending(w.hub.pending, w.chain.height).Ok? && SlashedBelowQueue(w.hub, EnvOf(w.chain), q)
    requires Transact(w, q, info, CheckSlashing).Ok?
    ensures Stuck(Transact(w, q, info, CheckSlashing).value)
  {
    hide SoundFor, CheckedState, Booked;
    TracksOfSound(w);
    CheckTakesMinimum(w.hub.state, w.hub.params.stakingCoinDenom, w.hub.currentBatch.requestedLstTokenAmount,
                      w.hub.pending, EnvOf(w.chain), q);
    CheckedStateIs(w.hub, EnvOf(w.chain), q);
  }

  lemma CheckedStateIs(l: Ledger, env: Env, q: Queries)
    requires CheckedState(l, env, q).Ok?
    ensures CheckedState(l, env, q)
         == ActualState(l.state, l.params.stakingCoinDenom, l.currentBatch.requestedLstTokenAmount, l.pending, env, q)
  {
    hide ActualState;
  }

  // ---------------------------------------------------------------- the rest of the epoch

  ghost predicate SameEpoch(c: Chain, d: Chain)
    requires c.epochLength > 0 && c.epochOrigin <= c.height <= d.height
  {
    Epoch(c.epochOrigin, c.epochLength, c.height) == Epoch(c.epochOrigin, c.epochLength, d.height)
  }

  lemma TransactionKeepsStuck(w: World, q: Queries, info: Info, msg: ExecuteMsg)
    requires Sound(w) && Stuck(w) && Possible(w, Tx(q, info, msg))
    requires Transact(w, q, info, msg).Ok?
    ensures var after := Transact(w, q, info, msg).value;
            && after.hub.state.totalStakedAmount == w.hub.state.totalStakedAmount
            && after.chain.queue == w.chain.queue && after.chain.delegated == w.chain.delegated
  {
    hide Transact, Sound, Stuck, Possible;
    if ChecksSlashing(w.hub, msg) {
      StuckFails(w, q, info, msg);
      FailsWhole(w, q, info, msg);
    } else if msg.ProcessWithdrawRequests? || IsWithdraw(msg) {
      var after := PassTransaction(w, q, info, msg);
    } else if IsSetting(msg) {
      var after := SettingTransaction(w, q, info, msg);
    } else {
      NothingUndelegated(w, q, info, msg);
    }
  }

  lemma FailsWhole(w: World, q: Queries, info: Info, msg: ExecuteMsg)
    requires Execute(w.hub, EnvOf(w.chain), q, info, msg).Err?
    ensures Transact(w, q, info, msg).Err?
  {
    hide Execute;
  }

  /** Within the epoch, as long as the chain holds something, a stuck world stays stuck with its total. */
  lemma StepKeepsStuck(w: World, step: Step)
    requires Sound(w) && Stuck(w) && Possible(w, step)
    requires w.chain.epochLength > 0 && w.chain.epochOrigin <= w.chain.height
    requires Next(w, step).chain.height >= w.chain.height && SameEpoch(w.chain, Next(w, step).chain)
    requires SumValues(Next(w, step).chain.delegated) > 0
    ensures Sound(Next(w, step)) && Stuck(Next(w, step))
    ensures Next(w, step).hub.state.totalStakedAmount == w.hub.state.totalStakedAmount
  {
    hide Transact, SoundFor, BurnTokens, Epoch, Drain;
    StepKeepsSound(w, step);
    match step
    case Tx(q, info, msg) =>
      if Transact(w, q, info, msg).Ok? {
        TransactionKeepsStuck(w, q, info, msg);
      }
    case TokenBurn(q, amount) => StuckBurnFails(w, q, amount);
    case _ =>
  }

  /** A run within one staking epoch, on a chain that holds something throughout. */
  ghost predicate EpochRun(start: World, steps: seq<Step>, end: World)
    decreases |steps|
  {
    if steps == [] then end == start
    else
      var n := |steps| - 1;
      exists mid ::
        && EpochRun(start, steps[..n], mid)
        && mid.chain.epochLength > 0 && mid.chain.epochOrigin <= mid.chain.height
        && Possible(mid, steps[n])
        && end == Next(mid, steps[n])
        && mid.chain.height <= end.chain.height && SameEpoch(mid.chain, end.chain)
        && SumValues(end.chain.delegated) > 0
  }

  /** Whatever is tried for the rest of the epoch, the world stays stuck and the total stays: by `StuckFails`
      and `StuckBurnFails`, every stake, unstake, burn, check and processing of requests goes on failing. */
  lemma {:induction false} StuckForTheEpoch(start: World, steps: seq<Step>, end: World)
    requires Sound(start) && Stuck(start) && EpochRun(start, steps, end)
    ensures Sound(end) && Stuck(end)
    ensures end.hub.state.totalStakedAmount == start.hub.state.totalStakedAmount
    decreases |steps|
  {
    hide Sound, Stuck, Next, Possible, SameEpoch;
    if steps != [] {
      var n := |steps| - 1;
      var mid :| EpochRun(start, steps[..n], mid)
                 && mid.chain.epochLength > 0 && mid.chain.epochOrigin <= mid.chain.height
                 && Possible(mid, steps[n])
                 && end == Next(mid, steps[n])
                 && mid.chain.height <= end.chain.height && SameEpoch(mid.chain, end.chain)
                 && SumValues(end.chain.delegated) > 0;
      StuckForTheEpoch(start, steps[..n], mid);
      StepKeepsStuck(mid, steps[n]);
    }
  }
}
