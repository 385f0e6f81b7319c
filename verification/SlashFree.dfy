/** Runs without slashing, whatever the pace of the blocks and the epoch length: the hub never counts more
    than the chain holds and has queued, no slashing check lowers its total, and the exchange rate never
    falls. */
module SlashFreeRuns {
  import opened Wrappers
  import opened Sums
  import opened FixedPoint
  import opened Delegation
  import opened PendingEpoch
  import opened HubTypes
  import opened Claims
  import opened Release
  import opened Handlers
  import opened Slashing
  import opened World
  import opened Batches
  import opened Runs
  import opened Reachable

  /** The total is no more than the chain's delegations with what is queued. It is less where the chain
      dropped an undelegation that asked for more than the validator had. */
  ghost predicate WithinReach(staked: nat, c: Chain) {
    staked + QueuedUnstake(c.queue) <= SumValues(c.delegated) + QueuedStake(c.queue)
  }

  /** Nothing is staked before the token is named. */
  ghost predicate TokenFirst(config: Config, c: Chain) {
    config.lstToken.None? ==> SumValues(c.delegated) == 0 && QueuedStake(c.queue) == 0
  }

  ghost predicate SlashFreeFor(w: World, tokens: nat) {
    && TokenFirst(w.hub.config, w.chain)
    && WithinReach(w.hub.state.totalStakedAmount, w.chain)
    && w.hub.state.lstExchangeRate >= ONE
    && Backed(w.hub.state.lstExchangeRate, w.hub.state.totalStakedAmount, tokens)
    && w.books.writtenOff == 0
  }

  ghost predicate SlashFree(w: World) { Sound(w) && SlashFreeFor(w, Tokens(w)) }

  /** The rate after a step is no lower, unless there is no token before it or after it. */
  ghost predicate RateKept(w: World, after: World) {
    Tokens(w) > 0 && Tokens(after) > 0 ==> w.hub.state.lstExchangeRate <= after.hub.state.lstExchangeRate
  }

  lemma StartIsSlashFree(w: World)
    requires Start(w)
    ensures SlashFree(w)
  {
    hide Start, Sound;
    StartIsSound(w);
    StartLedger(w);
    StartHoldsNothing(w);
  }

  lemma StartHoldsNothing(w: World)
    requires Start(w)
    ensures SumValues(w.chain.delegated) == 0
  {
  }

  // ---------------------------------------------------------------- the slashing check

  /** Where the total is within reach, a slashing check that succeeds leaves it as it is, and does not lower
      the rate while there are tokens. */
  lemma CheckLowersNothing(st: State, denom: string, requested: nat, pending: PendingDelegation, c: Chain, q: Queries)
    requires Tracks(pending, c) && WithinReach(st.totalStakedAmount, c)
    requires st.lstExchangeRate >= ONE
    requires Backed(st.lstExchangeRate, st.totalStakedAmount, q.supply + requested)
    requires SumOfDenom(q.delegations, denom) == SumValues(c.delegated)
    ensures var r := ActualState(st, denom, requested, pending, EnvOf(c), q);
            r.Ok? ==>
              && r.value == st.(lstExchangeRate := r.value.lstExchangeRate)
              && r.value.lstExchangeRate >= ONE
              && Backed(r.value.lstExchangeRate, st.totalStakedAmount, q.supply + requested)
              && (q.supply + requested > 0 ==> st.lstExchangeRate <= r.value.lstExchangeRate)
  {
    if q.delegations != [] {
      CheckTakesMinimum(st, denom, requested, pending, EnvOf(c), q);
      StakeBehindTokens(st, q.supply + requested);
      RefreshedRate(st, q.supply, requested, st.lstExchangeRate);
    }
  }

  /** In a slash-free world a check fails exactly if the chain holds something and the total is below what is
      queued to be staked. */
  lemma CheckFailsIff(w: World, stored: CurrentBatch, q: Queries, tokens: nat, balance: nat)
    requires SoundFor(w, tokens) && SlashFreeFor(w, tokens)
    requires Sees(w.chain, w.hub.params.stakingCoinDenom, q, balance)
    ensures CheckedState(w.hub.(currentBatch := stored), EnvOf(w.chain), q).Err?
       <==> SumValues(w.chain.delegated) > 0 && w.hub.state.totalStakedAmount < QueuedStake(w.chain.queue)
  {
    hide ActualState, Structured, Solvent, RateCovered, Unreleased, Backed, Sees, StartsEpoch;
    SeesDelegations(w.chain, w.hub.params.stakingCoinDenom, q, balance);
    CheckTakesMinimum(w.hub.state, w.hub.params.stakingCoinDenom, stored.requestedLstTokenAmount, w.hub.pending,
                      EnvOf(w.chain), q);
  }

  lemma StakeBehindTokens(st: State, tokens: nat)
    requires st.lstExchangeRate >= ONE && Backed(st.lstExchangeRate, st.totalStakedAmount, tokens)
    ensures tokens > 0 ==> st.totalStakedAmount > 0
  {
  }

  lemma SeesDelegations(c: Chain, denom: string, q: Queries, balance: nat)
    requires Sees(c, denom, q, balance)
    ensures SumOfDenom(q.delegations, denom) == SumValues(c.delegated) && q.supply == c.supply
    ensures q.delegations == [] <==> SumValues(c.delegated) == 0
  {
  }

  // ---------------------------------------------------------------- staking

  /** A stake mints the most tokens that its payment covers at the rate, and none for restaked rewards; it fails
      only at a rate of nothing. */
  lemma MintedIsTheMost(payment: nat, rate: nat, tokens: nat)
    ensures MintAmount(StakeType.StakeRewards, payment, rate) == Ok(0)
    ensures MintAmount(LSTMint, payment, rate) == Ok(tokens)
       <==> rate > 0 && tokens * rate <= payment * ONE < (tokens + 1) * rate
  {
    if rate > 0 {
      Floor(payment * ONE, rate, tokens);
    }
  }

  /** Although minting divides by a rounded-down rate, the stake covers the new tokens. */
  lemma StakeKeepsRate(st: State, kind: StakeType, payment: nat, minted: nat, tokens: nat)
    requires payment > 0 && st.lstExchangeRate >= ONE
    requires Backed(st.lstExchangeRate, st.totalStakedAmount, tokens)
    requires MintAmount(kind, payment, st.lstExchangeRate) == Ok(minted)
    ensures Backed(st.lstExchangeRate, st.totalStakedAmount + payment, tokens + minted)
  {
    if kind == LSTMint {
      DivisionBounds(payment, st.lstExchangeRate);
      assert st.lstExchangeRate * (tokens + minted) == st.lstExchangeRate * tokens + minted * st.lstExchangeRate;
    }
  }

  lemma StrictRate(st: State, tokens: nat)
    requires RateBound(st, tokens) && st.totalStakedAmount > 0
    ensures Backed(st.lstExchangeRate, st.totalStakedAmount, tokens)
  {
  }

  lemma StakeBooks(w: World, q: Queries, info: Info, msg: ExecuteMsg, after: Ledger)
    requires msg.Stake? || msg.StakeRewards?
    requires after.currentBatch == w.hub.currentBatch
    requires CheckedState(w.hub, EnvOf(w.chain), q).Ok?
    requires CheckedState(w.hub, EnvOf(w.chain), q).value.totalStakedAmount == w.hub.state.totalStakedAmount
    ensures var b := Booked(w, q, info, msg, after);
            b.writtenOff == w.books.writtenOff && b.lastBatchHeight == w.books.lastBatchHeight
  {
    hide ActualState, SumOfDenom, ReleaseDust;
  }

  lemma StakeKeepsSlashFree(w: World, q: Queries, info: Info, msg: ExecuteMsg)
    requires SlashFree(w) && Possible(w, Tx(q, info, msg))
    requires msg.Stake? || msg.StakeRewards?
    requires Transact(w, q, info, msg).Ok?
    ensures var after := Transact(w, q, info, msg).value;
            SlashFreeFor(after, Tokens(after)) && RateKept(w, after)
  {
    hide Transact, ActualState, UpdatePending, MintAmount, Structured, Solvent, Tracks, RateCovered, Unreleased, Backed,
         Sees, Booked, FromRatio, UnstakedFrom, SumOfDenom;
    var l := w.hub;
    var requested := l.currentBatch.requestedLstTokenAmount;
    var o, st, payment, minted, queued := StakeTransaction(w, q, info, msg);
    QueueAppend(w.chain.queue, queued);
    SeesDelegations(w.chain, l.params.stakingCoinDenom, q, Funded(w, info).bank);
    CheckLowersNothing(l.state, l.params.stakingCoinDenom, requested, l.pending, w.chain, q);
    StakeBooks(w, q, info, msg, o.ledger);
    StakeKeepsRate(st, KindOf(msg), payment, minted, q.supply + requested);
    RefreshedRate(st.(totalStakedAmount := st.totalStakedAmount + payment), q.supply + minted, requested,
                  st.lstExchangeRate);
    StrictRate(o.ledger.state, q.supply + minted + requested);
  }

  // ---------------------------------------------------------------- undelegating a batch

  /** The strict form of the rate bound survives a batch: there is enough stake for it, and the rest is
      still covered. The subtraction from the total never fails. */
  lemma BatchKeepsRate(st: State, tokens: nat, requested: nat)
    requires Backed(st.lstExchangeRate, st.totalStakedAmount, tokens) && requested <= tokens
    ensures var unstaked := DecimalMultiplication(requested, st.lstExchangeRate);
            && unstaked <= st.totalStakedAmount
            && Backed(st.lstExchangeRate, st.totalStakedAmount - unstaked, tokens - requested)
  {
    MultiplicationBounds(requested, st.lstExchangeRate);
    assert st.lstExchangeRate * (tokens - requested) == st.lstExchangeRate * tokens - requested * st.lstExchangeRate;
    assert requested * st.lstExchangeRate <= st.lstExchangeRate * tokens by {
      assert st.lstExchangeRate * requested <= st.lstExchangeRate * tokens;
    }
  }

  /** The world after the epoch check, with the height of a batch undelegated in it recorded. */
  ghost function WithBatchHeight(w: World, before: World): World {
    w.(books := w.books.(lastBatchHeight :=
         if w.hub.currentBatch.id != before.hub.currentBatch.id then Some(w.chain.height)
         else before.books.lastBatchHeight))
  }

  lemma CheckKeepsSlashFree(w: World, stored: CurrentBatch, q: Queries, st: State)
    requires SoundFor(w, q.supply + stored.requestedLstTokenAmount)
    requires SlashFreeFor(w, q.supply + stored.requestedLstTokenAmount)
    requires Sees(w.chain, w.hub.params.stakingCoinDenom, q, q.balance)
    requires CheckedState(w.hub.(currentBatch := stored), EnvOf(w.chain), q) == Ok(st)
    ensures st == w.hub.state.(lstExchangeRate := st.lstExchangeRate)
    ensures LoweredByCheck(w.hub.(currentBatch := stored), EnvOf(w.chain), q) == 0
    ensures SlashFreeFor(w.(hub := w.hub.(state := st)), q.supply + stored.requestedLstTokenAmount)
    ensures q.supply + stored.requestedLstTokenAmount > 0 ==> w.hub.state.lstExchangeRate <= st.lstExchangeRate
  {
    hide ActualState, Structured, Solvent, Tracks, RateCovered, Unreleased, Backed, Sees;
    SeesDelegations(w.chain, w.hub.params.stakingCoinDenom, q, q.balance);
    CheckLowersNothing(w.hub.state, w.hub.params.stakingCoinDenom, stored.requestedLstTokenAmount, w.hub.pending,
                       w.chain, q);
  }

  lemma BatchKeepsSlashFree(w: World, stored: CurrentBatch, q: Queries, tokens: nat) returns (o: Outcome, after: World)
    requires SlashFreeFor(w, tokens) && w.hub.currentBatch.requestedLstTokenAmount <= tokens
    requires BatchProcessed(w.hub.(currentBatch := stored), w.hub.currentBatch, EnvOf(w.chain), q).Ok?
    ensures BatchProcessed(w.hub.(currentBatch := stored), w.hub.currentBatch, EnvOf(w.chain), q) == Ok(o)
    ensures o.ledger.params == w.hub.params && o.ledger.state.lastProcessedBatch == w.hub.state.lastProcessedBatch
    ensures o.ledger.currentBatch == CurrentBatch(w.hub.currentBatch.id + 1, 0)
    ensures after == WithBatchHeight(World(o.ledger, w.chain.(queue := w.chain.queue + o.messages), w.books), w)
    ensures SlashFreeFor(after, tokens - w.hub.currentBatch.requestedLstTokenAmount)
    ensures o.ledger.state.lstExchangeRate == w.hub.state.lstExchangeRate
  {
    hide BatchProcessed, UpdatePending, DecimalMultiplication, Undelegations, Backed;
    var l, batch, env := w.hub, w.hub.currentBatch, EnvOf(w.chain);
    var unstaked;
    o, unstaked := BatchProcessedEffect(l.(currentBatch := stored), batch, env, q);
    after := WithBatchHeight(World(o.ledger, w.chain.(queue := w.chain.queue + o.messages), w.books), w);
    BatchKeepsRate(l.state, tokens, batch.requestedLstTokenAmount);
    QueueAppend(w.chain.queue, o.messages);
  }

  lemma EpochKeepsSlashFree(w: World, stored: CurrentBatch, q: Queries, tokens: nat) returns (o: Outcome, after: World)
    requires SoundFor(w, tokens) && SlashFreeFor(w, tokens)
    requires Sees(w.chain, w.hub.params.stakingCoinDenom, q, q.balance)
    requires tokens == q.supply + stored.requestedLstTokenAmount >= w.hub.currentBatch.requestedLstTokenAmount
    requires BatchEpochChecked(w.hub.(currentBatch := stored), w.hub.currentBatch, EnvOf(w.chain), q).Ok?
    ensures BatchEpochChecked(w.hub.(currentBatch := stored), w.hub.currentBatch, EnvOf(w.chain), q) == Ok(o)
    ensures o.ledger.params == w.hub.params && o.ledger.state.lastProcessedBatch == w.hub.state.lastProcessedBatch
    ensures LoweredByCheck(w.hub.(currentBatch := stored), EnvOf(w.chain), q) == 0
    ensures after == WithBatchHeight(World(o.ledger, w.chain.(queue := w.chain.queue + o.messages), w.books), w)
    ensures SlashFreeFor(after, tokens - w.hub.currentBatch.requestedLstTokenAmount
                                + o.ledger.currentBatch.requestedLstTokenAmount)
    ensures tokens > 0 ==> w.hub.state.lstExchangeRate <= o.ledger.state.lstExchangeRate
  {
    hide SoundFor, SlashFreeFor, CheckedState, LoweredByCheck, BatchEpochChecked, BatchProcessed, Sees;
    var l, batch, env := w.hub.(currentBatch := stored), w.hub.currentBatch, EnvOf(w.chain);
    var st;
    o, st := BatchEpochEffect(l, batch, env, q);
    CheckKeepsSlashFree(w, stored, q, st);
    var checked := w.(hub := w.hub.(state := st));
    if env.time - st.lastUnbondedTime > l.params.epochLength {
      var o1;
      o1, after := BatchKeepsSlashFree(checked, stored, q, tokens);
    } else {
      assert w.chain.queue + o.messages == w.chain.queue;
      after := checked;
    }
  }

  // ---------------------------------------------------------------- the other transactions

  /** Coins that reach the bank change nothing the invariant reads. */
  lemma SlashFreeIgnoresCoins(w: World, u: World, tokens: nat)
    requires SlashFreeFor(w, tokens)
    requires u.hub.state.totalStakedAmount == w.hub.state.totalStakedAmount
    requires u.hub.state.lstExchangeRate == w.hub.state.lstExchangeRate
    requires SumValues(u.chain.delegated) == SumValues(w.chain.delegated) && u.chain.queue == w.chain.queue
    requires u.books.writtenOff == w.books.writtenOff
    requires w.hub.config.lstToken.Some? ==> u.hub.config.lstToken.Some?
    ensures SlashFreeFor(u, tokens)
  {
    hide Backed;
  }

  lemma FewerTokensKeepSlashFree(w: World, tokens: nat, fewer: nat)
    requires SlashFreeFor(w, tokens) && fewer <= tokens
    ensures SlashFreeFor(w, fewer)
  {
    hide WithinReach;
    BackedFewer(w.hub.state.lstExchangeRate, w.hub.state.totalStakedAmount, tokens, fewer);
    hide Backed;
  }

  lemma BackedFewer(rate: nat, staked: nat, tokens: nat, fewer: nat)
    requires Backed(rate, staked, tokens) && fewer <= tokens
    ensures Backed(rate, staked, fewer)
  {
    assert rate * fewer <= rate * tokens;
  }

  lemma BurnKeepsSlashFree(w: World, q: Queries, amount: nat, tokens: nat)
    requires SoundFor(w, tokens) && SlashFreeFor(w, tokens)
    requires Sees(w.chain, w.hub.params.stakingCoinDenom, q, q.balance)
    requires BurnTokens(w, q, amount).Ok?
    requires w.chain.supply >= amount ==> tokens >= w.chain.supply - amount + w.hub.currentBatch.requestedLstTokenAmount
    ensures var after := BurnTokens(w, q, amount).value;
            && after.hub == w.hub.(state := w.hub.state.(lstExchangeRate := after.hub.state.lstExchangeRate))
            && after.chain == w.chain.(supply := after.chain.supply) && after.books == w.books
            && SlashFreeFor(after, Tokens(after))
            && (Tokens(after) > 0 ==> w.hub.state.lstExchangeRate <= after.hub.state.lstExchangeRate)
            && Tokens(after) == w.chain.supply - amount + w.hub.currentBatch.requestedLstTokenAmount
  {
    hide ActualState, Structured, Solvent, Tracks, RateCovered, Unreleased, Backed, Sees;
    var l := w.hub;
    var supply := w.chain.supply - amount;
    FewerTokensKeepSlashFree(w, tokens, supply + l.currentBatch.requestedLstTokenAmount);
    SeesDelegations(w.chain, l.params.stakingCoinDenom, q, q.balance);
    CheckLowersNothing(l.state, l.params.stakingCoinDenom, l.currentBatch.requestedLstTokenAmount, l.pending, w.chain,
                       q.(supply := supply));
  }

  lemma SeesArrived(w: World, q: Queries, info: Info)
    requires Sees(w.chain, w.hub.params.stakingCoinDenom, q, Funded(w, info).bank)
    ensures Sees(w.chain, w.hub.params.stakingCoinDenom, q, q.balance) && q.supply == w.chain.supply
    ensures Sees(Funded(w, info), w.hub.params.stakingCoinDenom, q, q.balance)
  {
  }

  /** The world in which the request is recorded, and the batch in memory is the current one. */
  ghost function RecordedWorld(w: World, info: Info, msg: ExecuteMsg): World
    requires IsUnstake(msg)
  {
    Arrived(w, info).(hub := RecordedLedger(w.hub, UnstakeUser(info, msg), UnstakeAmount(msg)).(
                        currentBatch := RecordedBatch(w.hub, UnstakeAmount(msg))))
  }

  lemma RecordedIsSlashFree(w: World, q: Queries, info: Info, msg: ExecuteMsg)
    requires SlashFree(w) && Possible(w, Tx(q, info, msg))
    requires IsUnstake(msg)
    ensures var recorded := RecordedWorld(w, info, msg);
            && SoundFor(recorded, Tokens(w)) && SlashFreeFor(recorded, Tokens(w))
            && Sees(recorded.chain, recorded.hub.params.stakingCoinDenom, q, q.balance) && q.supply == w.chain.supply
  {
    hide SoundFor, SlashFreeFor, Recorded, Sees;
    SeesArrived(w, q, info);
    ArrivedIsSound(w, info);
    var recorded := RecordKeepsSound(Arrived(w, info), UnstakeUser(info, msg), UnstakeAmount(msg));
    SlashFreeIgnoresCoins(w, recorded, Tokens(w));
  }

  /** An unstake, up to its burn: the world the epoch check leaves is sound and slash-free. */
  lemma UnstakeBeforeBurn(w: World, q: Queries, info: Info, msg: ExecuteMsg)
    returns (o: Outcome, mid: World, tokens: nat)
    requires SlashFree(w) && Possible(w, Tx(q, info, msg))
    requires IsUnstake(msg)
    requires Transact(w, q, info, msg).Ok?
    ensures UnstakeAmount(msg) <= w.chain.supply
    ensures var recorded := RecordedWorld(w, info, msg);
            && BatchEpochChecked(recorded.hub.(currentBatch := w.hub.currentBatch), recorded.hub.currentBatch,
                                 EnvOf(w.chain), q) == Ok(o)
            && mid == WithBatchHeight(World(o.ledger, recorded.chain.(queue := recorded.chain.queue + o.messages),
                                            w.books), w)
    ensures tokens == w.chain.supply - UnstakeAmount(msg) + mid.hub.currentBatch.requestedLstTokenAmount
    ensures SoundFor(mid, tokens) && SlashFreeFor(mid, tokens)
    ensures Sees(mid.chain, mid.hub.params.stakingCoinDenom, q, q.balance)
    ensures Tokens(w) > 0 ==> w.hub.state.lstExchangeRate <= mid.hub.state.lstExchangeRate
    ensures Transact(w, q, info, msg) == BurnTokens(mid, q, UnstakeAmount(msg))
  {
    hide Transact, BatchEpochChecked, SoundFor, SlashFreeFor, BurnTokens, Recorded, LoweredByCheck, Sees;
    var l := w.hub;
    var amount := UnstakeAmount(msg);
    var recorded := RecordedWorld(w, info, msg);
    RecordedIsSlashFree(w, q, info, msg);
    hide SlashFree, Possible, Booked;
    o, mid := UnstakeChecked(w, q, info, msg);
    BurnNeedsSupply(mid, q, amount);
    var o1, after := EpochKeepsSound(recorded, l.currentBatch, q, Tokens(w));
    var o2, freeAfter := EpochKeepsSlashFree(recorded, l.currentBatch, q, Tokens(w));
    UnstakeBooks(w, q, info, msg, o.ledger);
    LoweredReads(recorded.hub.(currentBatch := l.currentBatch), l, EnvOf(w.chain), q);
    assert mid == freeAfter;
    tokens := Tokens(w) - recorded.hub.currentBatch.requestedLstTokenAmount
              + o.ledger.currentBatch.requestedLstTokenAmount;
    SoundIgnoresBatchHeight(after, mid, tokens);
    SeesQueued(recorded.chain, mid.chain, l.params.stakingCoinDenom, q);
  }

  /** An unstake that succeeds is the epoch check on the recorded request, and then the burn. */
  lemma UnstakeChecked(w: World, q: Queries, info: Info, msg: ExecuteMsg) returns (o: Outcome, mid: World)
    requires IsUnstake(msg)
    requires Transact(w, q, info, msg).Ok?
    ensures var recorded := RecordedWorld(w, info, msg);
            && BatchEpochChecked(recorded.hub.(currentBatch := w.hub.currentBatch), recorded.hub.currentBatch,
                                 EnvOf(w.chain), q) == Ok(o)
            && mid == World(o.ledger, recorded.chain.(queue := recorded.chain.queue + o.messages),
                            Booked(w, q, info, msg, o.ledger))
    ensures Transact(w, q, info, msg) == BurnTokens(mid, q, UnstakeAmount(msg))
  {
    hide Transact, BatchEpochChecked, BurnTokens, Recorded, Booked;
    var l := w.hub;
    var user, amount := UnstakeUser(info, msg), UnstakeAmount(msg);
    if BatchEpochChecked(RecordedLedger(l, user, amount), RecordedBatch(l, amount), EnvOf(w.chain), q).Ok? {
      UndelegatesOnly(RecordedLedger(l, user, amount), RecordedBatch(l, amount), EnvOf(w.chain), q);
    }
    o, mid := UnstakeTransaction(w, q, info, msg);
  }

  lemma LoweredReads(l: Ledger, m: Ledger, env: Env, q: Queries)
    requires l == m.(waitList := l.waitList)
    ensures LoweredByCheck(l, env, q) == LoweredByCheck(m, env, q)
  {
    hide ActualState;
  }

  lemma SeesQueued(c: Chain, d: Chain, denom: string, q: Queries)
    requires Sees(c, denom, q, q.balance) && d == c.(queue := d.queue)
    ensures Sees(d, denom, q, q.balance)
  {
  }

  lemma UnstakeKeepsSlashFree(w: World, q: Queries, info: Info, msg: ExecuteMsg)
    requires SlashFree(w) && Possible(w, Tx(q, info, msg))
    requires IsUnstake(msg)
    requires Transact(w, q, info, msg).Ok?
    ensures var after := Transact(w, q, info, msg).value;
            SlashFreeFor(after, Tokens(after)) && RateKept(w, after)
  {
    hide Transact, SoundFor, SlashFreeFor, BurnTokens, Sees, BatchEpochChecked;
    var o, mid, tokens := UnstakeBeforeBurn(w, q, info, msg);
    BurnKeepsSlashFree(mid, q, UnstakeAmount(msg), tokens);
  }

  /** A processing of undelegations with something to undelegate is the epoch check. */
  lemma UndelegationsBooks(w: World, q: Queries, info: Info, msg: ExecuteMsg) returns (o: Outcome, after: World)
    requires SlashFree(w) && Possible(w, Tx(q, info, msg))
    requires msg.ProcessUndelegations? && w.hub.currentBatch.requestedLstTokenAmount > 0
    requires Transact(w, q, info, msg).Ok?
    ensures SoundFor(Arrived(w, info), Tokens(w)) && SlashFreeFor(Arrived(w, info), Tokens(w))
    ensures BatchEpochChecked(w.hub, w.hub.currentBatch, EnvOf(w.chain), q) == Ok(o)
    ensures after == WithBatchHeight(World(o.ledger, Funded(w, info).(queue := w.chain.queue + o.messages), w.books), w)
    ensures Transact(w, q, info, msg) == Ok(after)
    ensures Sees(Funded(w, info), w.hub.params.stakingCoinDenom, q, q.balance)
    ensures SlashFreeFor(after, Tokens(after)) && RateKept(w, after)
  {
    hide BatchEpochChecked, SoundFor, SlashFreeFor, ActualState, BurnTokens, Sees;
    var l := w.hub;
    SeesArrived(w, q, info);
    ArrivedIsSound(w, info);
    SlashFreeIgnoresCoins(w, Arrived(w, info), Tokens(w));
    o, after := EpochKeepsSlashFree(Arrived(w, info), l.currentBatch, q, Tokens(w));
    UnstakeBooks(w, q, info, msg, o.ledger);
    UndelegatesOnly(l, l.currentBatch, EnvOf(w.chain), q);
    DeliverQueued(World(o.ledger, Funded(w, info), Booked(w, q, info, msg, o.ledger)), q, o.messages);
  }

  lemma UndelegationsKeepSlashFree(w: World, q: Queries, info: Info, msg: ExecuteMsg)
    requires SlashFree(w) && Possible(w, Tx(q, info, msg))
    requires msg.ProcessUndelegations?
    requires Transact(w, q, info, msg).Ok?
    ensures var after := Transact(w, q, info, msg).value;
            SlashFreeFor(after, Tokens(after)) && RateKept(w, after)
  {
    hide Possible, SoundFor, SlashFreeFor;
    if w.hub.currentBatch.requestedLstTokenAmount == 0 {
      NothingUndelegated(w, q, info, msg);
      SlashFreeIgnoresCoins(w, Arrived(w, info), Tokens(w));
    } else {
      hide Transact;
      var o, after := UndelegationsBooks(w, q, info, msg);
    }
  }

  lemma NothingUndelegated(w: World, q: Queries, info: Info, msg: ExecuteMsg)
    requires msg.ProcessUndelegations? && w.hub.currentBatch.requestedLstTokenAmount == 0
    requires Transact(w, q, info, msg).Ok?
    ensures Transact(w, q, info, msg) == Ok(Arrived(w, info))
  {
    hide BatchEpochChecked;
    UnchangedBooks(w, q, info, msg, w.hub);
  }

  /** A slashing check of its own. */
  lemma CheckTransaction(w: World, q: Queries, info: Info, msg: ExecuteMsg) returns (after: World)
    requires SlashFree(w) && Possible(w, Tx(q, info, msg))
    requires msg.CheckSlashing?
    requires Transact(w, q, info, msg).Ok?
    ensures Transact(w, q, info, msg) == Ok(after)
    ensures after == World(w.hub.(state := w.hub.state.(lstExchangeRate := after.hub.state.lstExchangeRate)),
                           Funded(w, info), w.books)
    ensures SlashFreeFor(after, Tokens(after)) && RateKept(w, after)
  {
    hide ActualState, Structured, Solvent, Tracks, RateCovered, Unreleased, Backed, Sees, Booked;
    var l := w.hub;
    SeesDelegations(w.chain, l.params.stakingCoinDenom, q, Funded(w, info).bank);
    CheckLowersNothing(l.state, l.params.stakingCoinDenom, l.currentBatch.requestedLstTokenAmount, l.pending, w.chain,
                       q);
    UnstakeBooks(w, q, info, msg, SlashingChecked(l, EnvOf(w.chain), q).value);
    after := Transact(w, q, info, msg).value;
  }

  lemma SettingKeepsSlashFree(w: World, q: Queries, info: Info, msg: ExecuteMsg)
    requires SlashFree(w) && IsSetting(msg)
    requires Transact(w, q, info, msg).Ok?
    ensures var after := Transact(w, q, info, msg).value;
            SlashFreeFor(after, Tokens(after)) && RateKept(w, after)
  {
    hide Sound, Transact, SlashFreeFor, UpdatedParams;
    var after := SettingTransaction(w, q, info, msg);
    SlashFreeIgnoresCoins(w, after, Tokens(w));
  }

  /** What a release and a payout leave alone. */
  lemma PassTransaction(w: World, q: Queries, info: Info, msg: ExecuteMsg) returns (after: World)
    requires Sound(w) && Possible(w, Tx(q, info, msg))
    requires msg.ProcessWithdrawRequests? || IsWithdraw(msg)
    requires Transact(w, q, info, msg).Ok?
    ensures Transact(w, q, info, msg) == Ok(after)
    ensures after.hub == w.hub.(state := w.hub.state.(
                                  unclaimedUnstakedBalance := after.hub.state.unclaimedUnstakedBalance,
                                  lastProcessedBatch := after.hub.state.lastProcessedBatch),
                                waitList := after.hub.waitList, history := after.hub.history)
    ensures after.chain == w.chain.(bank := after.chain.bank)
    ensures after.books.writtenOff == w.books.writtenOff && after.books.lastBatchHeight == w.books.lastBatchHeight
  {
    hide SoundFor, FreeBalance, WithdrawRateProcessed, MarkReleased, Affordable, ReleasePass, CostUpTo, ReleaseDust,
         Finished, ListedEntries, Without, UserBatches, Ascending, Repeated, Booked, BurnTokens;
    if msg.ProcessWithdrawRequests? {
      ArrivedIsSound(w, info);
      var last, left := ReleaseEffect(Arrived(w, info), q, EnvOf(w.chain).time - w.hub.params.unstakingPeriod);
      after := Transact(w, q, info, msg).value;
    } else {
      var last, released, amount, batches := WithdrawTransaction(w, q, info, msg);
      hide Transact;
      after := Transact(w, q, info, msg).value;
    }
    ReleaseBooks(w, q, info, msg, after.hub);
  }

  lemma ReleaseBooks(w: World, q: Queries, info: Info, msg: ExecuteMsg, after: Ledger)
    requires msg.ProcessWithdrawRequests? || IsWithdraw(msg)
    requires after.currentBatch == w.hub.currentBatch
    ensures var b := Booked(w, q, info, msg, after);
            b.writtenOff == w.books.writtenOff && b.lastBatchHeight == w.books.lastBatchHeight
  {
    hide LoweredByCheck, ReleaseDust, Repeated, AskedBatches;
  }

  lemma PassKeepsSlashFree(w: World, q: Queries, info: Info, msg: ExecuteMsg)
    requires SlashFree(w) && Possible(w, Tx(q, info, msg))
    requires msg.ProcessWithdrawRequests? || IsWithdraw(msg)
    requires Transact(w, q, info, msg).Ok?
    ensures var after := Transact(w, q, info, msg).value;
            SlashFreeFor(after, Tokens(after)) && RateKept(w, after)
  {
    hide Sound, SlashFreeFor, Transact, Possible;
    var after := PassTransaction(w, q, info, msg);
    SlashFreeIgnoresCoins(w, after, Tokens(w));
  }

  // ---------------------------------------------------------------- blocks

  /** The end of an epoch stakes all that is queued to be staked, and takes at most what is queued to be
      unstaked. */
  lemma {:induction false} DrainKeepsReach(c: Chain, queue: seq<Message>)
    requires QueuedStake(queue) <= c.bank
    ensures SumValues(c.delegated) + QueuedStake(queue) <= SumValues(Drain(c, queue).delegated) + QueuedUnstake(queue)
    ensures SumValues(Drain(c, queue).delegated) <= SumValues(c.delegated) + QueuedStake(queue)
  {
    if queue != [] {
      var n := |queue| - 1;
      DrainBank(c, queue[..n]);
      DrainKeepsReach(c, queue[..n]);
      DrainOneReach(Drain(c, queue[..n]), queue[n]);
    }
  }

  lemma DrainOneReach(c: Chain, m: Message)
    requires m.Delegate? ==> m.amount <= c.bank
    ensures SumValues(c.delegated) + StakedBy(m) <= SumValues(DrainOne(c, m).delegated) + UnstakedBy(m)
    ensures SumValues(DrainOne(c, m).delegated) <= SumValues(c.delegated) + StakedBy(m)
  {
    if m.Delegate? {
      SumUpdate(c.delegated, m.validator, At(c.delegated, m.validator) + m.amount);
    } else if m.Undelegate? && m.amount <= At(c.delegated, m.validator) {
      SumUpdate(c.delegated, m.validator, At(c.delegated, m.validator) - m.amount);
    }
  }

  lemma BlockKeepsSlashFree(w: World, passed: nat)
    requires SlashFree(w)
    ensures var after := w.(chain := NewBlock(w.chain, passed)); SlashFreeFor(after, Tokens(after))
  {
    hide Structured, Solvent, Tracks, RateCovered, Unreleased, Drain, Backed;
    SoundHasEpochs(w);
    DrainKeepsClock(w.chain, w.chain.queue);
    DrainKeepsReach(w.chain, w.chain.queue);
  }

  // ---------------------------------------------------------------- runs

  lemma TransactionKeepsSlashFree(w: World, q: Queries, info: Info, msg: ExecuteMsg)
    requires SlashFree(w) && Possible(w, Tx(q, info, msg))
    requires Transact(w, q, info, msg).Ok?
    ensures var after := Transact(w, q, info, msg).value;
            SlashFreeFor(after, Tokens(after)) && RateKept(w, after)
  {
    hide Transact, SlashFree, SlashFreeFor, RateKept;
    match msg
    case Stake => StakeKeepsSlashFree(w, q, info, msg);
    case StakeRewards => StakeKeepsSlashFree(w, q, info, msg);
    case Unstake(_) => UnstakeKeepsSlashFree(w, q, info, msg);
    case ReceiveUnstake(_, _) => UnstakeKeepsSlashFree(w, q, info, msg);
    case WithdrawUnstaked => PassKeepsSlashFree(w, q, info, msg);
    case WithdrawUnstakedForBatches(_) => PassKeepsSlashFree(w, q, info, msg);
    case CheckSlashing => var after := CheckTransaction(w, q, info, msg);
    case ProcessUndelegations => UndelegationsKeepSlashFree(w, q, info, msg);
    case ProcessWithdrawRequests => PassKeepsSlashFree(w, q, info, msg);
    case UpdateParams(_, _, _) => SettingKeepsSlashFree(w, q, info, msg);
    case UpdateConfig(_, _, _, _) => SettingKeepsSlashFree(w, q, info, msg);
    case RedelegateProxy(_, _) => SettingKeepsSlashFree(w, q, info, msg);
    case UpdateGlobalIndex => SettingKeepsSlashFree(w, q, info, msg);
  }

  /** Every step but a slash keeps the invariant and, while there are tokens, does not lower the rate. */
  lemma StepKeepsSlashFree(w: World, step: Step)
    requires SlashFree(w) && Possible(w, step) && !step.Slash?
    ensures SlashFree(Next(w, step))
    ensures RateKept(w, Next(w, step))
  {
    hide Transact, SoundFor, SlashFreeFor, BurnTokens, NewBlock;
    StepKeepsSound(w, step);
    SoundHasEpochs(w);
    match step
    case Tx(q, info, msg) =>
      if Transact(w, q, info, msg).Ok? {
        TransactionKeepsSlashFree(w, q, info, msg);
      }
    case TokenBurn(q, amount) =>
      if BurnTokens(w, q, amount).Ok? {
        BurnNeedsSupply(w, q, amount);
        BurnKeepsSlashFree(w, q, amount, Tokens(w));
      }
    case NextBlock(passed) => BlockKeepsSlashFree(w, passed);
    case Arrive(_) => SlashFreeIgnoresCoins(w, Next(w, step), Tokens(w));
    case Donate(_) => SlashFreeIgnoresCoins(w, Next(w, step), Tokens(w));
    case LoseUnbonding(_) => SlashFreeIgnoresCoins(w, Next(w, step), Tokens(w));
    case Move(_) => SlashFreeIgnoresCoins(w, Next(w, step), Tokens(w));
  }
}
