/** Worlds in which a token is worth one coin, where transactions are easy to follow: with them the runs in
    Meeting.dfy, Frozen.dfy, Doubled.dfy, Slashed.dfy and Fallen.dfy are traced step by step. */
module LevelWorlds {
  import opened Wrappers
  import opened Sums
  import opened FixedPoint
  import opened Delegation
  import opened PendingEpoch
  import opened HubTypes
  import opened Claims
  import opened Handlers
  import opened Slashing
  import opened World
  import opened Runs
  import opened Reachable
  import opened SlashFreeRuns
  import opened CalmRuns
  import opened Liveness

  /** The rate is 1, and the tokens are as many as the coins staked, all of which the chain holds or has
      queued. */
  ghost predicate Level(w: World) {
    && !w.hub.params.paused && Configured(w.hub.config)
    && Tracks(w.hub.pending, w.chain)
    && Shadows(w.hub.state.totalStakedAmount, w.chain)
    && QueuedStake(w.chain.queue) <= w.hub.state.totalStakedAmount
    && w.hub.state.lstExchangeRate == ONE
    && w.hub.state.totalStakedAmount == Tokens(w)
    && w.hub.state.lastUnbondedTime <= EnvOf(w.chain).time
  }

  lemma EvenRate(st: State, tokens: nat)
    requires st.lstExchangeRate == ONE && st.totalStakedAmount == tokens
    ensures forall issued: nat, requested: nat | issued + requested == tokens ::
              st.UpdateLstExchangeRate(issued, requested) == st
  {
    if tokens > 0 {
      WholeRatio(tokens);
    }
  }

  /** A slashing check changes nothing in a level world. */
  lemma LevelCheck(w: World, q: Queries)
    requires Level(w)
    requires SumOfDenom(q.delegations, w.hub.params.stakingCoinDenom) == SumValues(w.chain.delegated)
    requires q.supply == w.chain.supply
    ensures CheckedState(w.hub, EnvOf(w.chain), q) == Ok(w.hub.state)
  {
    hide FromRatio, GetPending, SumOfDenom, StartsEpoch;
    EvenRate(w.hub.state, Tokens(w));
    if q.delegations != [] {
      CheckTakesMinimum(w.hub.state, w.hub.params.stakingCoinDenom, w.hub.currentBatch.requestedLstTokenAmount,
                        w.hub.pending, EnvOf(w.chain), q);
    }
  }

  // ---------------------------------------------------------------- staking

  lemma LevelStaked(w: World, q: Queries, info: Info) returns (o: Outcome, payment: nat)
    requires Level(w) && Possible(w, Tx(q, info, Stake))
    requires PaysOneCoin(info.funds, w.hub.params.stakingCoinDenom)
    requires CanDelegate(q, SumOfDenom(info.funds, w.hub.params.stakingCoinDenom))
    ensures payment == SumOfDenom(info.funds, w.hub.params.stakingCoinDenom) > 0
    ensures Delegations(payment, Totals(q.validators)).Ok?
    ensures Staked(w.hub, EnvOf(w.chain), q, info, LSTMint) == Ok(o)
    ensures o.ledger == w.hub.(state := w.hub.state.(totalStakedAmount := w.hub.state.totalStakedAmount + payment),
                               pending := o.ledger.pending)
    ensures UpdatePending(w.hub.pending, w.chain.height, payment, 0) == Ok(o.ledger.pending)
    ensures var queued := DelegateMessages(q.validators, Delegations(payment, Totals(q.validators)).value);
            o.messages == queued + [Mint(info.sender, payment)] && QueuedStake(queued) == payment
            && QueuedUnstake(queued) == 0 && forall m | m in queued :: m.Delegate?
  {
    hide CheckedState, UpdatePending, Delegations, DelegateMessages, CanDelegate, Payment, SumOfDenom, FromRatio,
         MintAmount, StartsEpoch, GetPending, Staked;
    LevelCheck(w, q);
    UpdatesSucceed(w.hub.pending, w.chain);
    StakedOkIff(w.hub, EnvOf(w.chain), q, info, LSTMint);
    var st, minted, queued;
    o, st, payment, minted, queued := StakeEffect(w.hub, EnvOf(w.chain), q, info, LSTMint);
    OneForOne(payment);
    EvenRate(st.(totalStakedAmount := st.totalStakedAmount + payment), Tokens(w) + payment);
  }

  /** A stake mints a token for each coin, and queues its delegations. */
  lemma LevelStake(w: World, q: Queries, info: Info) returns (after: World, payment: nat)
    requires Level(w) && Possible(w, Tx(q, info, Stake))
    requires PaysOneCoin(info.funds, w.hub.params.stakingCoinDenom)
    requires CanDelegate(q, SumOfDenom(info.funds, w.hub.params.stakingCoinDenom))
    ensures payment == SumOfDenom(info.funds, w.hub.params.stakingCoinDenom) > 0
    ensures Delegations(payment, Totals(q.validators)).Ok?
    ensures Transact(w, q, info, Stake) == Ok(after)
    ensures after == World(
                       w.hub.(state := w.hub.state.(totalStakedAmount := w.hub.state.totalStakedAmount + payment),
                              pending := after.hub.pending),
                       w.chain.(bank := w.chain.bank + payment, supply := w.chain.supply + payment,
                                queue := w.chain.queue
                                  + DelegateMessages(q.validators, Delegations(payment, Totals(q.validators)).value)),
                       w.books.(deposited := w.books.deposited + payment))
    ensures UpdatePending(w.hub.pending, w.chain.height, payment, 0) == Ok(after.hub.pending)
    ensures Level(after)
  {
    hide CheckedState, UpdatePending, Delegations, DelegateMessages, CanDelegate, Payment, SumOfDenom, Staked,
         StartsEpoch, GetPending, BurnTokens, Level, LoweredByCheck;
    var o;
    o, payment := LevelStaked(w, q, info);
    NotPausedWhenLevel(w);
    assert Execute(w.hub, EnvOf(w.chain), q, info, Stake) == Ok(o);
    hide Execute;
    NothingLowered(w, q, Funded(w, info).bank);
    var queued := DelegateMessages(q.validators, Delegations(payment, Totals(q.validators)).value);
    var mid := World(o.ledger, Funded(w, info), Booked(w, q, info, Stake, o.ledger));
    DeliverThen(mid, q, queued, Mint(info.sender, payment));
    after := Transact(w, q, info, Stake).value;
    StakedIsLevel(w, after, payment, queued);
  }

  lemma StakedIsLevel(w: World, after: World, payment: nat, queued: seq<Message>)
    requires Level(w)
    requires QueuedStake(queued) == payment && QueuedUnstake(queued) == 0
    requires UpdatePending(w.hub.pending, w.chain.height, payment, 0) == Ok(after.hub.pending)
    requires after.hub == w.hub.(state := w.hub.state.(totalStakedAmount := w.hub.state.totalStakedAmount + payment),
                                 pending := after.hub.pending)
    requires after.chain == w.chain.(bank := after.chain.bank, supply := w.chain.supply + payment,
                                     queue := w.chain.queue + queued)
    ensures Level(after)
  {
    hide UpdatePending, Tracks;
    UpdateKeepsTracks(w.hub.pending, w.chain, queued, after.hub.pending);
    TracksIgnoresCoins(after.hub.pending, w.chain.(queue := w.chain.queue + queued), after.chain);
    QueueAppend(w.chain.queue, queued);
  }

  // ---------------------------------------------------------------- unstaking

  /** The world before the burn, in which the request is recorded and the batch, if due, undelegated. */
  ghost function LevelRequested(w: World, q: Queries, user: Addr, amount: nat, pending: PendingDelegation): World {
    var l := RecordedLedger(w.hub, user, amount);
    var batch := RecordedBatch(w.hub, amount);
    var worth := batch.requestedLstTokenAmount;
    var parts := Undelegations(worth, Totals(q.validators));
    if !Due(w) || parts.Err? then w.(hub := l.(currentBatch := batch))
    else
      World(l.(state := l.state.(totalStakedAmount := if worth <= l.state.totalStakedAmount
                                                      then l.state.totalStakedAmount - worth else 0,
                                 lastUnbondedTime := EnvOf(w.chain).time),
               pending := pending,
               history := l.history[batch.id := UnstakeHistory(batch.id, EnvOf(w.chain).time, worth, ONE, ONE, false)],
               currentBatch := CurrentBatch(batch.id + 1, 0)),
            w.chain.(queue := w.chain.queue + UndelegateMessages(q.validators, parts.value)),
            w.books.(lastBatchHeight := Some(w.chain.height)))
  }

  /** The batch can be undelegated, and leaves what is queued to be staked. */
  ghost predicate LeavesLevel(w: World, q: Queries, worth: nat) {
    CanUndelegate(q, worth, ONE) && QueuedStake(w.chain.queue) + worth <= w.hub.state.totalStakedAmount
  }

  lemma LevelEpochCheck(w: World, q: Queries, user: Addr, amount: nat) returns (o: Outcome)
    requires Level(w) && Sees(w.chain, w.hub.params.stakingCoinDenom, q, w.chain.bank)
    requires amount <= w.chain.supply
    requires Due(w) ==> LeavesLevel(w, q, w.hub.currentBatch.requestedLstTokenAmount + amount)
    ensures BatchEpochChecked(RecordedLedger(w.hub, user, amount), RecordedBatch(w.hub, amount), EnvOf(w.chain), q)
            == Ok(o)
    ensures forall m | m in o.messages :: m.Undelegate?
    ensures Due(w) ==> UpdatePending(w.hub.pending, w.chain.height, 0,
                                     w.hub.currentBatch.requestedLstTokenAmount + amount)
                       == Ok(o.ledger.pending)
    ensures var after := LevelRequested(w, q, user, amount, o.ledger.pending);
            && o.ledger == after.hub
            && after.chain == w.chain.(queue := w.chain.queue + o.messages)
            && after.chain.queue == w.chain.queue + o.messages
    ensures Level(LevelRequested(w, q, user, amount, o.ledger.pending).(
                    chain := w.chain.(queue := w.chain.queue + o.messages, supply := w.chain.supply - amount)))
  {
    hide CheckedState, UpdatePending, Undelegations, UndelegateMessages, Recorded, Sees, GetPending, StartsEpoch,
         SumOfDenom, DecimalMultiplication, CanUndelegate, BatchProcessed;
    var l, batch := RecordedLedger(w.hub, user, amount), RecordedBatch(w.hub, amount);
    var worth := batch.requestedLstTokenAmount;
    SeesDelegations(w.chain, w.hub.params.stakingCoinDenom, q, w.chain.bank);
    LevelCheck(w, q);
    CheckReads(l, w.hub, EnvOf(w.chain), q);
    OneForOne(worth);
    UpdatesSucceed(w.hub.pending, w.chain);
    assert l.(state := w.hub.state) == l;
    if Due(w) {
      BatchOkIff(l, batch, EnvOf(w.chain), q);
      var o1, unstaked := BatchProcessedEffect(l, batch, EnvOf(w.chain), q);
      o := o1;
      UpdateKeepsTracks(w.hub.pending, w.chain, o.messages, o.ledger.pending);
      TracksIgnoresCoins(o.ledger.pending, w.chain.(queue := w.chain.queue + o.messages),
                         w.chain.(queue := w.chain.queue + o.messages, supply := w.chain.supply - amount));
      QueueAppend(w.chain.queue, o.messages);
    } else {
      o := Outcome(l.(currentBatch := batch), []);
      assert w.chain.queue + [] == w.chain.queue;
      TracksIgnoresCoins(w.hub.pending, w.chain, w.chain.(supply := w.chain.supply - amount));
    }
  }

  /** An unstake records the request, undelegates the batch if it is due, and burns the tokens. */
  lemma LevelUnstake(w: World, q: Queries, user: Addr, amount: nat) returns (after: World, pending: PendingDelegation)
    requires Level(w) && Sees(w.chain, w.hub.params.stakingCoinDenom, q, w.chain.bank)
    requires amount <= w.chain.supply && amount <= q.tokenBalance && amount <= q.allowance
    requires Due(w) ==> LeavesLevel(w, q, w.hub.currentBatch.requestedLstTokenAmount + amount)
    ensures Possible(w, Tx(q, Info(user, []), Unstake(amount)))
    ensures Transact(w, q, Info(user, []), Unstake(amount)) == Ok(after)
    ensures var requested := LevelRequested(w, q, user, amount, pending);
            after == requested.(chain := requested.chain.(supply := w.chain.supply - amount))
    ensures Due(w) ==> UpdatePending(w.hub.pending, w.chain.height, 0,
                                     w.hub.currentBatch.requestedLstTokenAmount + amount)
                       == Ok(pending)
    ensures Level(after)
  {
    hide CheckedState, UpdatePending, Undelegations, UndelegateMessages, Recorded, Sees, GetPending, StartsEpoch,
         BatchEpochChecked, LeavesLevel, BurnTokens, Level, LoweredByCheck, Transact, Booked, SumOfDenom;
    var info, msg := Info(user, []), Unstake(amount);
    var o := LevelEpochCheck(w, q, user, amount);
    pending := o.ledger.pending;
    UnstakeExecutesIff(w.hub, EnvOf(w.chain), q, info, msg);
    NotPausedWhenLevel(w);
    var o1, burn := UnstakeIsExecuted(w.hub, EnvOf(w.chain), q, info, msg);
    NoCoins(w, user);
    var sent := BurnComesLast(w, q, info, msg, o, burn);
    UnstakeBooks(w, q, info, msg, o.ledger);
    NothingLowered(w, q, w.chain.bank);
    var mid := LevelRequested(w, q, user, amount, pending);
    assert sent == mid;
    after := mid.(chain := mid.chain.(supply := w.chain.supply - amount));
    SeesDelegations(w.chain, w.hub.params.stakingCoinDenom, q, w.chain.bank);
    LevelBurn(mid, after, q, amount);
  }

  lemma NotPausedWhenLevel(w: World)
    requires Level(w)
    ensures !w.hub.params.paused && Configured(w.hub.config)
  {
  }

  lemma NothingLowered(w: World, q: Queries, balance: nat)
    requires Level(w) && Sees(w.chain, w.hub.params.stakingCoinDenom, q, balance)
    ensures LoweredByCheck(w.hub, EnvOf(w.chain), q) == 0
  {
    hide CheckedState, Sees, Level;
    SeesDelegations(w.chain, w.hub.params.stakingCoinDenom, q, balance);
    LevelCheck(w, q);
  }

  /** A burn that leaves a level world changes only the supply. */
  lemma LevelBurn(w: World, after: World, q: Queries, amount: nat)
    requires amount <= w.chain.supply && after == w.(chain := w.chain.(supply := w.chain.supply - amount))
    requires Level(after)
    requires SumOfDenom(q.delegations, w.hub.params.stakingCoinDenom) == SumValues(w.chain.delegated)
    ensures BurnTokens(w, q, amount) == Ok(after)
  {
    hide CheckedState, Tracks, Shadows;
    var q1 := q.(supply := after.chain.supply);
    LevelCheck(after, q1);
    assert EnvOf(after.chain) == EnvOf(w.chain);
  }

  lemma NoCoins(w: World, user: Addr)
    ensures Funded(w, Info(user, [])) == w.chain
  {
  }

  /** A processing of undelegations of a batch that is due. */
  lemma LevelProcess(w: World, q: Queries, user: Addr) returns (after: World)
    requires Level(w) && Sees(w.chain, w.hub.params.stakingCoinDenom, q, w.chain.bank)
    requires 0 < w.hub.currentBatch.requestedLstTokenAmount <= w.hub.state.totalStakedAmount && Due(w)
    requires CanUndelegate(q, w.hub.currentBatch.requestedLstTokenAmount, ONE)
    ensures Possible(w, Tx(q, Info(user, []), ProcessUndelegations))
    ensures Transact(w, q, Info(user, []), ProcessUndelegations) == Ok(after)
    ensures after.hub.state.totalStakedAmount
         == w.hub.state.totalStakedAmount - w.hub.currentBatch.requestedLstTokenAmount
    ensures after.chain.delegated == w.chain.delegated
    ensures QueuedStake(after.chain.queue) == QueuedStake(w.chain.queue)
  {
    hide CheckedState, UpdatePending, Undelegations, UndelegateMessages, Sees, GetPending, StartsEpoch, SumOfDenom,
         DecimalMultiplication, CanUndelegate, BatchProcessed, LoweredByCheck, Booked;
    var batch := w.hub.currentBatch;
    NoCoins(w, user);
    SeesDelegations(w.chain, w.hub.params.stakingCoinDenom, q, w.chain.bank);
    LevelCheck(w, q);
    OneForOne(batch.requestedLstTokenAmount);
    UpdatesSucceed(w.hub.pending, w.chain);
    BatchOkIff(w.hub, batch, EnvOf(w.chain), q);
    var o, unstaked := BatchProcessedEffect(w.hub, batch, EnvOf(w.chain), q);
    assert w.hub.(state := w.hub.state) == w.hub;
    assert Execute(w.hub, EnvOf(w.chain), q, Info(user, []), ProcessUndelegations) == Ok(o);
    hide Execute;
    DeliverQueued(World(o.ledger, Funded(w, Info(user, [])),
                        Booked(w, q, Info(user, []), ProcessUndelegations, o.ledger)), q, o.messages);
    QueueAppend(w.chain.queue, o.messages);
    after := Transact(w, q, Info(user, []), ProcessUndelegations).value;
  }

  // ---------------------------------------------------------------- one validator

  /** A stake goes in full to the one validator listed. */
  lemma SoleDelegation(v: Addr, held: nat, amount: nat)
    requires 0 < amount && held + amount <= U128_MAX
    ensures var validators := [ValidatorResponse(held, v)];
            && Totals(validators) == [held] && Sum([held]) + amount <= U128_MAX
            && Delegations(amount, Totals(validators)).Ok?
            && DelegateMessages(validators, Delegations(amount, Totals(validators)).value) == [Delegate(v, amount)]
  {
    var validators := [ValidatorResponse(held, v)];
    assert Totals(validators) == [held];
    assert Sum([held]) == held by {
      assert [held][..0] == [];
    }
    DelegationsTotalAndExact(amount, [held]);
    var parts := Delegations(amount, [held]).value;
    assert parts == [parts[0]];
    assert Sum(parts) == parts[0] by {
      assert parts[..0] == [];
    }
    hide Delegations;
    assert parts[..0] == [] && validators[..0] == [];
  }

  /** An undelegation is taken in full from the one validator listed. */
  lemma SoleUndelegation(v: Addr, held: nat, amount: nat)
    requires 0 < amount <= held <= U128_MAX
    ensures var validators := [ValidatorResponse(held, v)];
            && Totals(validators) == [held] && Sum([held]) == held
            && Undelegations(amount, Totals(validators)).Ok?
            && UndelegateMessages(validators, Undelegations(amount, Totals(validators)).value)
              == [Undelegate(v, amount)]
  {
    var validators := [ValidatorResponse(held, v)];
    assert Totals(validators) == [held];
    assert Sum([held]) == held by {
      assert [held][..0] == [];
    }
    UndelegationsTotalAndExact(amount, [held]);
    var parts := Undelegations(amount, [held]).value;
    assert parts == [parts[0]];
    assert Sum(parts) == parts[0] by {
      assert parts[..0] == [];
    }
    hide Undelegations;
    assert parts[..0] == [] && validators[..0] == [];
  }

  /** What the hub sees of a chain on which the only validator holds `held` of its coins. */
  ghost function SoleSight(held: nat, supply: nat, balance: nat): Queries {
    Queries(if held == 0 then [] else [Coin("ubbn", held)], supply, balance, [ValidatorResponse(held, "validator")],
            supply, supply)
  }

  lemma SoleSightIsTrue(c: Chain, held: nat, balance: nat)
    requires c.delegated == map["validator" := held] || (held == 0 && c.delegated == map[])
    ensures Sees(c, "ubbn", SoleSight(held, c.supply, balance), balance)
    ensures SumValues(c.delegated) == held
  {
    var q := SoleSight(held, c.supply, balance);
    var none: map<Addr, nat> := map[];
    assert SumValues(none) == 0;
    if "validator" in c.delegated {
      SumUpdate(none, "validator", held);
      assert c.delegated == none["validator" := held];
    }
    if held > 0 {
      assert q.delegations[..0] == [];
      assert SumOfDenom(q.delegations, "ubbn") == held;
    } else {
      assert q.delegations == [] && SumOfDenom([], "ubbn") == 0;
    }
  }

  lemma OneCoin(amount: nat)
    requires amount > 0
    ensures PaysOneCoin([Coin("ubbn", amount)], "ubbn")
    ensures SumOfDenom([Coin("ubbn", amount)], "ubbn") == amount
  {
    assert [Coin("ubbn", amount)][..0] == [];
  }

  lemma LevelHasEpochs(w: World)
    requires Level(w)
    ensures w.chain.epochLength > 0 && w.chain.epochOrigin <= w.chain.height
  {
  }

  // ---------------------------------------------------------------- blocks and runs

  /** The world `blocks` blocks later in the same staking epoch. */
  ghost function Later(w: World, blocks: nat, passed: nat): World {
    w.(chain := w.chain.(height := w.chain.height + blocks, nanos := w.chain.nanos + blocks * passed))
  }

  lemma AnyBlockIsPossible(w: World, passed: nat)
    ensures Possible(w, NextBlock(passed))
  {
  }

  lemma BlockPasses(w: World, passed: nat)
    requires w.chain.epochLength > 0 && w.chain.epochOrigin <= w.chain.height
    requires Epoch(w.chain.epochOrigin, w.chain.epochLength, w.chain.height)
          == Epoch(w.chain.epochOrigin, w.chain.epochLength, w.chain.height + 1)
    ensures Next(w, NextBlock(passed)) == Later(w, 1, passed)
  {
    hide Epoch, Drain;
  }

  lemma LaterOnce(w: World, blocks: nat, passed: nat)
    ensures Later(Later(w, blocks, passed), 1, passed) == Later(w, blocks + 1, passed)
    ensures var c := Later(w, blocks, passed).chain;
            && c.height == w.chain.height + blocks
            && c.epochOrigin == w.chain.epochOrigin && c.epochLength == w.chain.epochLength
    ensures Later(w, 0, passed) == w
  {
  }

  lemma EpochStays(origin: nat, length: nat, height: nat, blocks: nat)
    requires length > 0 && origin <= height
    requires Epoch(origin, length, height) == Epoch(origin, length, height + blocks + 1)
    ensures Epoch(origin, length, height) == Epoch(origin, length, height + blocks)
  {
    EpochsGrow(origin, length, height, height + blocks);
    EpochsGrow(origin, length, height + blocks, height + blocks + 1);
  }

  /** Within a staking epoch, blocks only pass the time. */
  lemma {:induction false} BlocksRun(w: World, blocks: nat, passed: nat) returns (steps: seq<Step>)
    requires w.chain.epochLength > 0 && w.chain.epochOrigin <= w.chain.height
    requires Epoch(w.chain.epochOrigin, w.chain.epochLength, w.chain.height)
          == Epoch(w.chain.epochOrigin, w.chain.epochLength, w.chain.height + blocks)
    ensures Run(w, steps, Later(w, blocks, passed))
    ensures forall s | s in steps :: s == NextBlock(passed)
  {
    hide Epoch, Next, Possible, Later;
    steps := [];
    if blocks == 0 {
      LaterOnce(w, 0, passed);
    } else {
      hide Run;
      LaterOnce(w, blocks - 1, passed);
      EpochStays(w.chain.epochOrigin, w.chain.epochLength, w.chain.height, blocks - 1);
      var head := BlocksRun(w, blocks - 1, passed);
      var mid := Later(w, blocks - 1, passed);
      BlockPasses(mid, passed);
      AnyBlockIsPossible(mid, passed);
      RunStep(w, head, mid, NextBlock(passed));
      steps := head + [NextBlock(passed)];
    }
  }

  lemma EpochOf(blocks: nat, n: nat, height: nat)
    requires blocks > 0 && n * blocks <= height < n * blocks + blocks
    ensures Epoch(0, blocks, height) == n
  {
    EpochContains(0, blocks, height, n);
  }

  /** A record that starts an epoch already over reads as nothing queued. */
  lemma TracksNothing(p: PendingDelegation, c: Chain, start: nat)
    requires c.epochOrigin == 0 && c.epochLength == p.stakingEpochLengthBlocks > 0 && c.queue == []
    requires p.stakingEpochStartBlockHeight == start * c.epochLength
             && start * c.epochLength + c.epochLength <= c.height
    ensures Tracks(p, c)
  {
    EpochContains(0, c.epochLength, start * c.epochLength, start);
    StartsEpochIff(0, c.epochLength, start * c.epochLength);
    hide Epoch, StartsEpoch;
  }

  /** A hub on which nothing was staked is level. */
  lemma NewIsLevel(w: World)
    requires w.hub.state.lstExchangeRate == ONE && w.hub.state.totalStakedAmount == 0 && !w.hub.params.paused
    requires w.hub.state.lastUnbondedTime <= EnvOf(w.chain).time
    requires w.hub.currentBatch.requestedLstTokenAmount == 0 && Configured(w.hub.config)
    requires w.chain.supply == 0 && w.chain.queue == [] && w.chain.delegated == map[]
    requires w.chain.epochLength > 0 && w.chain.epochOrigin <= w.chain.height
    requires w.hub.pending == PendingDelegation(w.chain.epochLength, w.chain.epochOrigin, 0, 0)
    ensures Level(w)
  {
    assert SumValues(w.chain.delegated) == 0;
    StartTracks(w.chain);
    hide Tracks, SumValues;
  }

  lemma DrainSole(c: Chain, m: Message)
    ensures Drain(c, [m]) == DrainOne(c, m)
  {
    assert [m][..0] == [];
    assert Drain(c, []) == c;
  }

  lemma DrainTwo(c: Chain, m: Message, n: Message)
    ensures Drain(c, [m, n]) == DrainOne(DrainOne(c, m), n)
  {
    assert [m, n][..1] == [m] && [m][..0] == [];
    assert Drain(c, [m]) == DrainOne(Drain(c, []), m);
  }

  lemma LaterIsLevel(w: World, blocks: nat, passed: nat)
    requires Level(w)
    requires w.chain.height + blocks < w.hub.pending.stakingEpochStartBlockHeight
             + w.hub.pending.stakingEpochLengthBlocks
    ensures Level(Later(w, blocks, passed))
  {
    assert w.chain.nanos <= w.chain.nanos + blocks * passed;
    LaterSeconds(w.chain.nanos, blocks * passed);
    hide StartsEpoch;
  }

  lemma RunStep(start: World, steps: seq<Step>, mid: World, step: Step)
    requires Run(start, steps, mid)
    requires mid.chain.epochLength > 0 && mid.chain.epochOrigin <= mid.chain.height && Possible(mid, step)
    ensures Run(start, steps + [step], Next(mid, step))
  {
    hide Possible, Next;
    assert (steps + [step])[..|steps|] == steps;
  }

  lemma LastOfRun(start: World, steps: seq<Step>, end: World) returns (before: World)
    requires Run(start, steps, end) && steps != []
    ensures Run(start, steps[..|steps| - 1], before)
    ensures before.chain.epochLength > 0 && before.chain.epochOrigin <= before.chain.height
    ensures Possible(before, steps[|steps| - 1]) && end == Next(before, steps[|steps| - 1])
  {
    hide Possible, Next;
    before :| Run(start, steps[..|steps| - 1], before)
              && before.chain.epochLength > 0 && before.chain.epochOrigin <= before.chain.height
              && Possible(before, steps[|steps| - 1])
              && end == Next(before, steps[|steps| - 1]);
  }

  lemma NoSteps(start: World, end: World)
    requires Run(start, [], end)
    ensures end == start
  {
    hide Possible, Next;
  }

  lemma {:induction false} RunThen(start: World, steps: seq<Step>, mid: World, more: seq<Step>, end: World)
    requires Run(start, steps, mid) && Run(mid, more, end)
    ensures Run(start, steps + more, end)
    decreases |more|
  {
    hide Possible, Next, Run;
    if more == [] {
      NoSteps(mid, end);
      assert steps + more == steps;
    } else {
      var n := |more| - 1;
      var before := LastOfRun(mid, more, end);
      RunThen(start, steps, mid, more[..n], before);
      RunStep(start, steps + more[..n], before, more[n]);
      assert steps + more[..n] + [more[n]] == steps + more;
    }
  }
}
