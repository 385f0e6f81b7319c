/** Slash-free runs with blocks at most AVERAGE_BLOCK_TIME apart and an epoch length that keeps batches in
    separate staking epochs, as every length instantiation admits does: the hub's total is exactly what
    the chain holds and has queued, and a slashing check never fails. */
module CalmRuns {
  import opened Wrappers
  import opened Sums
  import opened FixedPoint
  import opened Delegation
  import opened PendingEpoch
  import opened HubTypes
  import opened Claims
  import opened Handlers
  import opened Slashing
  import opened World
  import opened Batches
  import opened Runs
  import opened Reachable
  import opened SlashFreeRuns

  const MAX_BLOCK_NANOS: nat := AVERAGE_BLOCK_TIME * NANOS_PER_SECOND

  /** Batches this many seconds apart, on a chain whose staking epochs have `blocks` blocks, fall in
      different epochs. Instantiation asks for a little more. */
  predicate KeepsApart(epochLength: nat, blocks: nat)
    requires blocks > 0
  {
    epochLength >= (blocks - 1) * AVERAGE_BLOCK_TIME
  }

  /** The total is the chain's delegations with what is queued. */
  ghost predicate Shadows(staked: nat, c: Chain) {
    staked + QueuedUnstake(c.queue) == SumValues(c.delegated) + QueuedStake(c.queue)
  }

  /** Time has passed no faster since the last batch than the block time allows, and only a batch of
      the current epoch can still be queued. */
  ghost predicate Paced(lastUnbonded: nat, lastBatchHeight: Option<nat>, c: Chain)
    requires c.epochLength > 0 && c.epochOrigin <= c.height
  {
    match lastBatchHeight
    case None => QueuedUnstake(c.queue) == 0
    case Some(h) =>
      && c.epochOrigin <= h <= c.height
      && c.nanos < (lastUnbonded + 1) * NANOS_PER_SECOND + (c.height - h) * MAX_BLOCK_NANOS
      && (QueuedUnstake(c.queue) > 0 ==>
            Epoch(c.epochOrigin, c.epochLength, h) == Epoch(c.epochOrigin, c.epochLength, c.height))
  }

  /** What the pace of a calm run adds to the invariant of slash-free runs. */
  ghost predicate OnPace(w: World) {
    && w.chain.epochLength > 0 && w.chain.epochOrigin <= w.chain.height
    && KeepsApart(w.hub.params.epochLength, w.chain.epochLength)
    && Shadows(w.hub.state.totalStakedAmount, w.chain)
    && Covered(w.chain.delegated, w.chain.queue)
    && Paced(w.hub.state.lastUnbondedTime, w.books.lastBatchHeight, w.chain)
  }

  ghost predicate Calm(w: World) { SlashFree(w) && OnPace(w) }

  /** What a calm run admits of a step. */
  ghost predicate CalmStep(epochLength: nat, step: Step) {
    match step
    case NextBlock(passed) => passed <= MAX_BLOCK_NANOS
    case Slash(_, _) => false
    case Tx(_, _, msg) =>
      msg.UpdateParams? && msg.epochLength.Some? ==>
        epochLength > 0 && KeepsApart(msg.epochLength.value, epochLength)
    case _ => true
  }

  lemma StartIsCalm(w: World)
    requires Start(w)
    ensures Calm(w)
  {
    hide Start, SlashFree;
    StartIsSlashFree(w);
    StartLedger(w);
    StartAdmits(w);
    assert QueuedUnstake(w.chain.queue) == 0;
    assert forall v :: UnstakedFrom(w.chain.queue, v) == 0;
  }

  lemma StartAdmits(w: World)
    requires Start(w)
    ensures KeepsApart(w.hub.params.epochLength, w.chain.epochLength)
    ensures SumValues(w.chain.delegated) == 0
  {
  }

  // ---------------------------------------------------------------- the slashing check

  /** In a calm world a slashing check succeeds. */
  lemma CheckSucceeds(w: World, stored: CurrentBatch, q: Queries, tokens: nat) returns (st: State)
    requires SoundFor(w, tokens) && SlashFreeFor(w, tokens) && OnPace(w)
    requires Sees(w.chain, w.hub.params.stakingCoinDenom, q, q.balance)
    requires tokens == q.supply + stored.requestedLstTokenAmount
    ensures CheckedState(w.hub.(currentBatch := stored), EnvOf(w.chain), q) == Ok(st)
    ensures st == w.hub.state.(lstExchangeRate := st.lstExchangeRate)
    ensures st.lstExchangeRate >= ONE && Backed(st.lstExchangeRate, st.totalStakedAmount, tokens)
  {
    hide ActualState, Structured, Solvent, Tracks, RateCovered, Unreleased, Covered, Paced, Backed, Sees;
    SeesDelegations(w.chain, w.hub.params.stakingCoinDenom, q, q.balance);
    CheckIsOk(w.hub.state, w.hub.params.stakingCoinDenom, stored.requestedLstTokenAmount, w.hub.pending, w.chain, q);
    CheckLowersNothing(w.hub.state, w.hub.params.stakingCoinDenom, stored.requestedLstTokenAmount, w.hub.pending,
                       w.chain, q);
    st := CheckedState(w.hub.(currentBatch := stored), EnvOf(w.chain), q).value;
  }

  lemma CheckIsOk(st: State, denom: string, requested: nat, pending: PendingDelegation, c: Chain, q: Queries)
    requires Tracks(pending, c) && Shadows(st.totalStakedAmount, c) && Covered(c.delegated, c.queue)
    requires SumOfDenom(q.delegations, denom) == SumValues(c.delegated)
    ensures ActualState(st, denom, requested, pending, EnvOf(c), q).Ok?
  {
    CoveredTotal(c.delegated, c.queue);
    if q.delegations != [] {
      CheckTakesMinimum(st, denom, requested, pending, EnvOf(c), q);
    }
  }

  // ---------------------------------------------------------------- staking

  lemma StakeKeepsPace(w: World, q: Queries, info: Info, msg: ExecuteMsg)
    requires Calm(w) && Possible(w, Tx(q, info, msg))
    requires msg.Stake? || msg.StakeRewards?
    requires Transact(w, q, info, msg).Ok?
    ensures OnPace(Transact(w, q, info, msg).value)
  {
    hide Transact, ActualState, UpdatePending, MintAmount, Structured, Solvent, Tracks, RateCovered, Unreleased,
         Covered, Paced, Backed, Sees, Booked;
    var l := w.hub;
    var o, st, payment, minted, queued := StakeTransaction(w, q, info, msg);
    QueueAppend(w.chain.queue, queued);
    SeesDelegations(w.chain, l.params.stakingCoinDenom, q, Funded(w, info).bank);
    CheckLowersNothing(l.state, l.params.stakingCoinDenom, l.currentBatch.requestedLstTokenAmount, l.pending, w.chain,
                       q);
    StakeBooks(w, q, info, msg, o.ledger);
    PacedReadsQueue(l.state.lastUnbondedTime, w.books.lastBatchHeight, w.chain, Transact(w, q, info, msg).value.chain);
    CoveredAfterStake(w.chain.delegated, w.chain.queue, queued);
  }

  lemma CoveredAfterStake(delegated: map<Addr, nat>, queue: seq<Message>, more: seq<Message>)
    requires Covered(delegated, queue)
    requires forall v :: UnstakedFrom(more, v) == 0
    ensures Covered(delegated, queue + more)
  {
    QueueAppend(queue, more);
    forall v ensures UnstakedFrom(queue + more, v) <= At(delegated, v) {
      assert UnstakedFrom(queue, v) <= At(delegated, v);
    }
  }

  // ---------------------------------------------------------------- undelegating a batch

  /** Two batches never fall in one staking epoch: when the next one is due, at least as many
      blocks as an epoch holds have passed since the last, and nothing of it is queued any more. */
  lemma BatchesInSeparateEpochs(c: Chain, epochLength: nat, lastUnbonded: nat, lastBatchHeight: Option<nat>)
    requires c.epochLength > 0 && c.epochOrigin <= c.height
    requires KeepsApart(epochLength, c.epochLength)
    requires Paced(lastUnbonded, lastBatchHeight, c)
    requires EnvOf(c).time > lastUnbonded + epochLength
    ensures lastBatchHeight.Some? ==>
              Epoch(c.epochOrigin, c.epochLength, lastBatchHeight.value) < Epoch(c.epochOrigin, c.epochLength, c.height)
    ensures QueuedUnstake(c.queue) == 0
  {
    if lastBatchHeight.Some? {
      var h := lastBatchHeight.value;
      var e := Epoch(c.epochOrigin, c.epochLength, h);
      assert c.nanos >= (lastUnbonded + epochLength + 1) * NANOS_PER_SECOND;
      assert c.height - h >= c.epochLength;
      EpochsGrow(c.epochOrigin, c.epochLength, h, c.height);
      EpochContains(c.epochOrigin, c.epochLength, h, e);
      EpochContains(c.epochOrigin, c.epochLength, c.height, e);
    }
  }

  lemma {:induction false} NothingQueued(queue: seq<Message>, v: Addr)
    requires QueuedUnstake(queue) == 0
    ensures UnstakedFrom(queue, v) == 0
  {
    if queue != [] {
      NothingQueued(queue[..|queue| - 1], v);
    }
  }

  lemma CoveredAfterBatch(c: Chain, denom: string, q: Queries, parts: seq<nat>, amount: nat)
    requires QueuedUnstake(c.queue) == 0 && Sees(c, denom, q, q.balance)
    requires Undelegations(amount, Totals(q.validators)) == Ok(parts) && |parts| == |q.validators|
    ensures Covered(c.delegated, c.queue + UndelegateMessages(q.validators, parts))
  {
    var messages := UndelegateMessages(q.validators, parts);
    NoneTakesMoreThanItHas(amount, Totals(q.validators), parts);
    hide Undelegations;
    UndelegateMessagesCovered(q.validators, parts, c.delegated);
    QueueAppend(c.queue, messages);
    forall v ensures UnstakedFrom(c.queue + messages, v) <= At(c.delegated, v) {
      NothingQueued(c.queue, v);
      assert UnstakedFrom(messages, v) <= At(c.delegated, v);
    }
  }

  lemma NoneTakesMoreThanItHas(amount: nat, current: seq<nat>, parts: seq<nat>)
    requires Undelegations(amount, current) == Ok(parts)
    ensures |parts| == |current| && forall i | 0 <= i < |current| :: parts[i] <= current[i]
  {
    UndelegationsTotalAndExact(amount, current);
  }

  lemma BatchKeepsPace(w: World, stored: CurrentBatch, q: Queries) returns (o: Outcome, after: World)
    requires OnPace(w)
    requires Sees(w.chain, w.hub.params.stakingCoinDenom, q, q.balance)
    requires EnvOf(w.chain).time > w.hub.state.lastUnbondedTime + w.hub.params.epochLength
    requires BatchProcessed(w.hub.(currentBatch := stored), w.hub.currentBatch, EnvOf(w.chain), q).Ok?
    ensures BatchProcessed(w.hub.(currentBatch := stored), w.hub.currentBatch, EnvOf(w.chain), q) == Ok(o)
    ensures after == WithBatchHeight(World(o.ledger, w.chain.(queue := w.chain.queue + o.messages), w.books), w)
    ensures OnPace(after)
  {
    hide BatchProcessed, UpdatePending, DecimalMultiplication, Undelegations, Covered, Paced, Sees, Totals,
         UndelegateMessages, QueuedStake, QueuedUnstake, UnstakedFrom, Epoch, SumValues, KeepsApart;
    var l, batch, env := w.hub, w.hub.currentBatch, EnvOf(w.chain);
    var unstaked;
    o, unstaked := BatchProcessedEffect(l.(currentBatch := stored), batch, env, q);
    after := WithBatchHeight(World(o.ledger, w.chain.(queue := w.chain.queue + o.messages), w.books), w);
    BatchesInSeparateEpochs(w.chain, l.params.epochLength, l.state.lastUnbondedTime, w.books.lastBatchHeight);
    CoveredAfterBatch(w.chain, l.params.stakingCoinDenom, q, Undelegations(unstaked, Totals(q.validators)).value,
                      unstaked);
    QueueAppend(w.chain.queue, o.messages);
    PacedAtBatch(after.chain);
  }

  lemma EpochKeepsPace(w: World, stored: CurrentBatch, q: Queries, tokens: nat) returns (o: Outcome, after: World)
    requires SoundFor(w, tokens) && SlashFreeFor(w, tokens) && OnPace(w)
    requires Sees(w.chain, w.hub.params.stakingCoinDenom, q, q.balance)
    requires tokens == q.supply + stored.requestedLstTokenAmount
    requires BatchEpochChecked(w.hub.(currentBatch := stored), w.hub.currentBatch, EnvOf(w.chain), q).Ok?
    ensures BatchEpochChecked(w.hub.(currentBatch := stored), w.hub.currentBatch, EnvOf(w.chain), q) == Ok(o)
    ensures after == WithBatchHeight(World(o.ledger, w.chain.(queue := w.chain.queue + o.messages), w.books), w)
    ensures OnPace(after)
  {
    hide SoundFor, SlashFreeFor, CheckedState, LoweredByCheck, BatchEpochChecked, BatchProcessed, Sees, Covered, Paced,
         Shadows;
    var l, batch, env := w.hub.(currentBatch := stored), w.hub.currentBatch, EnvOf(w.chain);
    var st;
    o, st := BatchEpochEffect(l, batch, env, q);
    CheckKeepsSlashFree(w, stored, q, st);
    var checked := w.(hub := w.hub.(state := st));
    if env.time - st.lastUnbondedTime > l.params.epochLength {
      var o1;
      o1, after := BatchKeepsPace(checked, stored, q);
    } else {
      assert w.chain.queue + o.messages == w.chain.queue;
      after := WithBatchHeight(World(o.ledger, w.chain.(queue := w.chain.queue + o.messages), w.books), w);
    }
  }

  lemma PacedAtBatch(c: Chain)
    requires c.epochLength > 0 && c.epochOrigin <= c.height
    ensures Paced(EnvOf(c).time, Some(c.height), c)
  {
  }

  // ---------------------------------------------------------------- the other transactions

  /** What the pace does not read. */
  lemma PaceIgnoresCoins(w: World, u: World)
    requires OnPace(w)
    requires u.hub.state.totalStakedAmount == w.hub.state.totalStakedAmount
    requires u.hub.state.lastUnbondedTime == w.hub.state.lastUnbondedTime
    requires KeepsApart(u.hub.params.epochLength, w.chain.epochLength)
    requires u.chain == w.chain.(bank := u.chain.bank, supply := u.chain.supply, unbonding := u.chain.unbonding)
    requires u.books.lastBatchHeight == w.books.lastBatchHeight
    ensures OnPace(u)
  {
    hide Covered;
  }

  lemma PacedReadsQueue(lastUnbonded: nat, lastBatchHeight: Option<nat>, c: Chain, d: Chain)
    requires c.epochLength > 0 && c.epochOrigin <= c.height
    requires d == c.(bank := d.bank, supply := d.supply, unbonding := d.unbonding, delegated := d.delegated,
                     queue := d.queue)
    requires QueuedUnstake(d.queue) == QueuedUnstake(c.queue)
    ensures Paced(lastUnbonded, lastBatchHeight, d) == Paced(lastUnbonded, lastBatchHeight, c)
  {
  }

  lemma UnstakeKeepsPace(w: World, q: Queries, info: Info, msg: ExecuteMsg)
    requires Calm(w) && Possible(w, Tx(q, info, msg))
    requires IsUnstake(msg)
    requires Transact(w, q, info, msg).Ok?
    ensures OnPace(Transact(w, q, info, msg).value)
  {
    hide Transact, BatchEpochChecked, SoundFor, SlashFreeFor, BurnTokens, Recorded, Sees, OnPace;
    var o, mid, tokens := UnstakeBeforeBurn(w, q, info, msg);
    var recorded := RecordedWorld(w, info, msg);
    RecordedIsSlashFree(w, q, info, msg);
    RecordedOnPace(w, info, msg);
    var o1, after := EpochKeepsPace(recorded, w.hub.currentBatch, q, Tokens(w));
    BurnKeepsSlashFree(mid, q, UnstakeAmount(msg), tokens);
    KeepsApartOf(mid);
    PaceIgnoresCoins(mid, BurnTokens(mid, q, UnstakeAmount(msg)).value);
  }

  lemma RecordedOnPace(w: World, info: Info, msg: ExecuteMsg)
    requires OnPace(w) && IsUnstake(msg)
    ensures OnPace(RecordedWorld(w, info, msg))
  {
    hide OnPace, Recorded;
    KeepsApartOf(w);
    PaceIgnoresCoins(w, RecordedWorld(w, info, msg));
  }

  lemma KeepsApartOf(w: World)
    requires OnPace(w)
    ensures w.chain.epochLength > 0 && w.chain.epochOrigin <= w.chain.height
    ensures KeepsApart(w.hub.params.epochLength, w.chain.epochLength)
  {
  }

  lemma UndelegationsKeepPace(w: World, q: Queries, info: Info, msg: ExecuteMsg)
    requires Calm(w) && Possible(w, Tx(q, info, msg))
    requires msg.ProcessUndelegations?
    requires Transact(w, q, info, msg).Ok?
    ensures OnPace(Transact(w, q, info, msg).value)
  {
    hide BatchEpochChecked, SoundFor, SlashFreeFor, OnPace, Sees;
    KeepsApartOf(w);
    PaceIgnoresCoins(w, Arrived(w, info));
    if w.hub.currentBatch.requestedLstTokenAmount == 0 {
      NothingUndelegated(w, q, info, msg);
    } else {
      hide Transact;
      SeesArrived(w, q, info);
      var o, after := UndelegationsBooks(w, q, info, msg);
      var o1, paced := EpochKeepsPace(Arrived(w, info), w.hub.currentBatch, q, Tokens(w));
    }
  }

  lemma CheckKeepsPace(w: World, q: Queries, info: Info, msg: ExecuteMsg)
    requires Calm(w) && Possible(w, Tx(q, info, msg))
    requires msg.CheckSlashing?
    requires Transact(w, q, info, msg).Ok?
    ensures OnPace(Transact(w, q, info, msg).value)
  {
    hide Transact, SlashFree, OnPace;
    var after := CheckTransaction(w, q, info, msg);
    KeepsApartOf(w);
    PaceIgnoresCoins(w, after);
  }

  lemma SettingKeepsPace(w: World, q: Queries, info: Info, msg: ExecuteMsg)
    requires Calm(w) && IsSetting(msg) && CalmStep(w.chain.epochLength, Tx(q, info, msg))
    requires Transact(w, q, info, msg).Ok?
    ensures OnPace(Transact(w, q, info, msg).value)
  {
    hide Transact, SlashFree, OnPace;
    var after := SettingTransaction(w, q, info, msg);
    KeepsApartOf(w);
    PaceIgnoresCoins(w, after);
  }

  lemma PassKeepsPace(w: World, q: Queries, info: Info, msg: ExecuteMsg)
    requires Calm(w) && Possible(w, Tx(q, info, msg))
    requires msg.ProcessWithdrawRequests? || IsWithdraw(msg)
    requires Transact(w, q, info, msg).Ok?
    ensures OnPace(Transact(w, q, info, msg).value)
  {
    hide Transact, Sound, SlashFreeFor, OnPace, Possible;
    var after := PassTransaction(w, q, info, msg);
    KeepsApartOf(w);
    PaceIgnoresCoins(w, after);
  }

  // ---------------------------------------------------------------- blocks

  /** At the end of an epoch every queued message is carried out, and the chain holds what the hub
      counted as queued. */
  lemma BlockKeepsPace(w: World, passed: nat)
    requires Calm(w) && passed <= MAX_BLOCK_NANOS
    ensures OnPace(w.(chain := NewBlock(w.chain, passed)))
  {
    hide Structured, Solvent, Tracks, RateCovered, Unreleased, Drain, SlashFreeFor;
    var c := w.chain;
    var n := NewBlock(c, passed);
    DrainBank(c, c.queue);
    DrainCovered(c, c.queue);
    CoveredByNothing(n.delegated);
    if Epoch(c.epochOrigin, c.epochLength, c.height + 1) != Epoch(c.epochOrigin, c.epochLength, c.height) {
      assert QueuedStake(n.queue) == 0 && QueuedUnstake(n.queue) == 0;
    }
    PacedOverBlock(w.hub.state.lastUnbondedTime, w.books.lastBatchHeight, c, n, passed);
    hide Covered, Paced;
  }

  lemma CoveredByNothing(delegated: map<Addr, nat>)
    ensures Covered(delegated, [])
  {
  }

  lemma PacedOverBlock(lastUnbonded: nat, lastBatchHeight: Option<nat>, c: Chain, n: Chain, passed: nat)
    requires c.epochLength > 0 && c.epochOrigin <= c.height && passed <= MAX_BLOCK_NANOS
    requires Paced(lastUnbonded, lastBatchHeight, c)
    requires n.epochOrigin == c.epochOrigin && n.epochLength == c.epochLength
    requires n.height == c.height + 1 && n.nanos == c.nanos + passed
    requires if Epoch(c.epochOrigin, c.epochLength, c.height + 1) != Epoch(c.epochOrigin, c.epochLength, c.height)
             then n.queue == [] else n.queue == c.queue
    ensures Paced(lastUnbonded, lastBatchHeight, n)
  {
    hide Epoch;
    assert QueuedUnstake([]) == 0;
  }

  lemma MoveKeepsPace(w: World, delegated: map<Addr, nat>)
    requires Calm(w) && Possible(w, Move(delegated))
    ensures OnPace(w.(chain := w.chain.(delegated := delegated)))
  {
    hide SlashFree, Covered, Paced;
    PacedReadsQueue(w.hub.state.lastUnbondedTime, w.books.lastBatchHeight, w.chain, w.chain.(delegated := delegated));
  }

  // ---------------------------------------------------------------- runs

  lemma TransactionKeepsPace(w: World, q: Queries, info: Info, msg: ExecuteMsg)
    requires Calm(w) && Possible(w, Tx(q, info, msg)) && CalmStep(w.chain.epochLength, Tx(q, info, msg))
    requires Transact(w, q, info, msg).Ok?
    ensures OnPace(Transact(w, q, info, msg).value)
  {
    hide Transact, Calm, OnPace;
    match msg
    case Stake => StakeKeepsPace(w, q, info, msg);
    case StakeRewards => StakeKeepsPace(w, q, info, msg);
    case Unstake(_) => UnstakeKeepsPace(w, q, info, msg);
    case ReceiveUnstake(_, _) => UnstakeKeepsPace(w, q, info, msg);
    case WithdrawUnstaked => PassKeepsPace(w, q, info, msg);
    case WithdrawUnstakedForBatches(_) => PassKeepsPace(w, q, info, msg);
    case CheckSlashing => CheckKeepsPace(w, q, info, msg);
    case ProcessUndelegations => UndelegationsKeepPace(w, q, info, msg);
    case ProcessWithdrawRequests => PassKeepsPace(w, q, info, msg);
    case UpdateParams(_, _, _) => SettingKeepsPace(w, q, info, msg);
    case UpdateConfig(_, _, _, _) => SettingKeepsPace(w, q, info, msg);
    case RedelegateProxy(_, _) => SettingKeepsPace(w, q, info, msg);
    case UpdateGlobalIndex => SettingKeepsPace(w, q, info, msg);
  }

  lemma CoinsKeepPace(w: World, step: Step)
    requires Calm(w) && Possible(w, step) && (step.Arrive? || step.Donate? || step.LoseUnbonding?)
    requires w.chain.epochLength > 0 && w.chain.epochOrigin <= w.chain.height
    ensures OnPace(Next(w, step))
  {
    hide SlashFree, OnPace;
    KeepsApartOf(w);
    PaceIgnoresCoins(w, Next(w, step));
  }

  lemma BurnKeepsPace(w: World, q: Queries, amount: nat)
    requires Calm(w) && Possible(w, TokenBurn(q, amount))
    requires BurnTokens(w, q, amount).Ok?
    ensures OnPace(BurnTokens(w, q, amount).value)
  {
    hide SoundFor, SlashFreeFor, OnPace, BurnTokens;
    SeesOwnBalance(w, q);
    BurnNeedsSupply(w, q, amount);
    BurnKeepsSlashFree(w, q, amount, Tokens(w));
    KeepsApartOf(w);
    PaceIgnoresCoins(w, BurnTokens(w, q, amount).value);
  }

  lemma SeesOwnBalance(w: World, q: Queries)
    requires Sees(w.chain, w.hub.params.stakingCoinDenom, q, w.chain.bank)
    ensures Sees(w.chain, w.hub.params.stakingCoinDenom, q, q.balance)
  {
  }

  /** Every calm step keeps the calm invariant. */
  lemma StepKeepsCalm(w: World, step: Step)
    requires Calm(w) && Possible(w, step) && CalmStep(w.chain.epochLength, step)
    ensures Calm(Next(w, step))
    ensures RateKept(w, Next(w, step))
  {
    hide Transact, SlashFree, OnPace, BurnTokens, NewBlock, RateKept;
    StepKeepsSlashFree(w, step);
    KeepsApartOf(w);
    match step
    case Tx(q, info, msg) =>
      if Transact(w, q, info, msg).Ok? {
        TransactionKeepsPace(w, q, info, msg);
      }
    case TokenBurn(q, amount) =>
      if BurnTokens(w, q, amount).Ok? {
        BurnKeepsPace(w, q, amount);
      }
    case NextBlock(passed) => BlockKeepsPace(w, passed);
    case Move(delegated) => MoveKeepsPace(w, delegated);
    case Arrive(_) => CoinsKeepPace(w, step);
    case Donate(_) => CoinsKeepPace(w, step);
    case LoseUnbonding(_) => CoinsKeepPace(w, step);
  }
}
