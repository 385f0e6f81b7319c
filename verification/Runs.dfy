/** What holds in every state of every run: any transactions, in any order, by anyone, with blocks,
    unbonding, donations and slashing between them. */
module Runs {
  import opened Wrappers
  import opened Sums
  import opened FixedPoint
  import opened Delegation
  import opened PendingEpoch
  import opened HubTypes
  import opened Claims
  import opened Release
  import opened Handlers
  import opened Slashing
  import opened World
  import opened Batches

  /** The hub's record of the epoch is the chain's queue: its epochs are the chain's, and the amounts
      it reads at the current height are those queued. */
  ghost predicate Tracks(p: PendingDelegation, c: Chain) {
    && c.epochLength > 0
    && p.stakingEpochLengthBlocks == c.epochLength
    && c.epochOrigin <= p.stakingEpochStartBlockHeight <= c.height
    && StartsEpoch(c.epochOrigin, c.epochLength, p.stakingEpochStartBlockHeight)
    && GetPending(p, c.height) == Ok((QueuedStake(c.queue), QueuedUnstake(c.queue)))
  }

  /** No coin appears or disappears: what was staked in is staked, due to batches not yet released,
      set aside for claims, paid out, or written off. */
  ghost predicate Conserved(staked: nat, unreleased: nat, unclaimed: nat, books: Books) {
    staked + unreleased + unclaimed + books.paidOut + books.writtenOff == books.deposited
  }

  /** The invariant, for a hub that is about to have `tokens` tokens counted. */
  ghost predicate SoundFor(w: World, tokens: nat) {
    var l := w.hub;
    && Structured(l.currentBatch, l.waitList, l.history, l.state.lastProcessedBatch, l.state.lastUnbondedTime)
    && l.state.lastUnbondedTime <= EnvOf(w.chain).time
    && Solvent(l.waitList, l.history, l.state.unclaimedUnstakedBalance, w.books.overpaid, w.books.dust)
    && QueuedStake(w.chain.queue) + l.state.unclaimedUnstakedBalance <= w.chain.bank
    && Tracks(l.pending, w.chain)
    && Conserved(l.state.totalStakedAmount, Unreleased(l.currentBatch, l.history, l.state.lastProcessedBatch),
                 l.state.unclaimedUnstakedBalance, w.books)
    && RateBound(l.state, tokens)
  }

  ghost function Tokens(w: World): nat { w.chain.supply + w.hub.currentBatch.requestedLstTokenAmount }

  ghost predicate Sound(w: World) { SoundFor(w, Tokens(w)) }

  // ---------------------------------------------------------------- the start

  lemma StartIsSound(w: World)
    requires Start(w)
    ensures Sound(w)
  {
    hide Start, Structured, Solvent, Tracks;
    StartLedger(w);
    NothingIsStructured(w.hub.state.lastUnbondedTime);
    StartTracks(w.chain);
  }

  lemma StartLedger(w: World)
    requires Start(w)
    ensures w.hub.state == State(ONE, 0, EnvOf(w.chain).time, 0, EnvOf(w.chain).time, 0)
    ensures w.hub.currentBatch == CurrentBatch(1, 0)
    ensures w.hub.waitList == map[] && w.hub.history == map[]
    ensures w.hub.pending == PendingDelegation(w.chain.epochLength, w.chain.epochOrigin, 0, 0)
    ensures Tokens(w) == 0 && QueuedStake(w.chain.queue) == 0
    ensures w.chain.epochLength > 0 && w.chain.epochOrigin <= w.chain.height && w.chain.queue == []
    ensures w.books == Books(0, 0, 0, 0, 0, None)
  {
  }

  lemma NothingIsStructured(time: nat)
    ensures Structured(CurrentBatch(1, 0), map[], map[], 0, time)
    ensures Solvent(map[], map[], 0, 0, 0)
  {
    assert BatchEntries(map[], 1) == map[];
    assert ClaimMap(map[], map[]) == map[];
  }

  lemma StartTracks(c: Chain)
    requires c.epochLength > 0 && c.epochOrigin <= c.height && c.queue == []
    ensures Tracks(PendingDelegation(c.epochLength, c.epochOrigin, 0, 0), c)
  {
    EpochContains(c.epochOrigin, c.epochLength, c.epochOrigin, 0);
  }

  // ---------------------------------------------------------------- the epoch record

  /** Recording what a transaction queues keeps the record and the queue in step. */
  lemma UpdateKeepsTracks(p: PendingDelegation, c: Chain, messages: seq<Message>, updated: PendingDelegation)
    requires Tracks(p, c)
    requires UpdatePending(p, c.height, QueuedStake(messages), QueuedUnstake(messages)) == Ok(updated)
    ensures Tracks(updated, c.(queue := c.queue + messages))
  {
    UpdateAddsToReading(p, c.epochOrigin, c.height, QueuedStake(messages), QueuedUnstake(messages));
    QueueAppend(c.queue, messages);
    hide UpdatePending, StartsEpoch, GetPending;
  }

  /** At the first block of an epoch the record reads as nothing queued; within one it keeps its reading. */
  lemma BlockKeepsTracks(p: PendingDelegation, c: Chain, passed: nat)
    requires Tracks(p, c)
    ensures Tracks(p, NewBlock(c, passed))
  {
    NextHeight(c.epochOrigin, c.epochLength, p.stakingEpochStartBlockHeight, c.height);
    DrainKeepsClock(c, c.queue);
  }

  lemma {:induction false} DrainKeepsClock(c: Chain, queue: seq<Message>)
    ensures var after := Drain(c, queue);
            after == c.(bank := after.bank, delegated := after.delegated, unbonding := after.unbonding)
  {
    if queue != [] {
      DrainKeepsClock(c, queue[..|queue| - 1]);
    }
  }

  // ---------------------------------------------------------------- delivering messages

  lemma {:induction false} DeliverQueued(w: World, q: Queries, messages: seq<Message>)
    requires forall m | m in messages :: m.Delegate? || m.Undelegate?
    ensures Deliver(w, q, messages) == Ok(w.(chain := w.chain.(queue := w.chain.queue + messages)))
  {
    if messages == [] {
      assert w.chain.queue + [] == w.chain.queue;
    } else {
      var n := |messages| - 1;
      DeliverQueued(w, q, messages[..n]);
      assert w.chain.queue + messages[..n] + [messages[n]] == w.chain.queue + messages;
    }
  }

  lemma DeliverThen(w: World, q: Queries, messages: seq<Message>, last: Message)
    requires forall m | m in messages :: m.Delegate? || m.Undelegate?
    ensures Deliver(w, q, messages + [last])
         == DeliverOne(w.(chain := w.chain.(queue := w.chain.queue + messages)), q, last)
  {
    assert (messages + [last])[..|messages|] == messages;
    DeliverQueued(w, q, messages);
  }

  /** The messages whose effect on the chain the steps of the environment stand for. */
  predicate IsPlain(m: Message) {
    m.Redelegate? || m.WithdrawReward? || m.DispatchRewards? || m.SetWithdrawAddress?
  }

  lemma {:induction false} DeliverPlain(w: World, q: Queries, messages: seq<Message>)
    requires forall m | m in messages :: IsPlain(m)
    ensures Deliver(w, q, messages) == Ok(w)
  {
    if messages != [] {
      assert IsPlain(messages[|messages| - 1]);
      DeliverPlain(w, q, messages[..|messages| - 1]);
    }
  }

  /** Delivering messages can only refresh the hub's state, by a burn's slashing check. */
  ghost predicate Follows(w: World, after: World) {
    after.hub == w.hub.(state := after.hub.state)
  }

  lemma DeliverOneFollows(w: World, q: Queries, m: Message)
    requires DeliverOne(w, q, m).Ok?
    ensures Follows(w, DeliverOne(w, q, m).value)
  {
    hide CheckedState, LoweredByCheck;
  }

  lemma BurnFollows(w: World, q: Queries, amount: nat)
    requires BurnTokens(w, q, amount).Ok?
    ensures var after := BurnTokens(w, q, amount).value;
            Follows(w, after) && after.chain == w.chain.(supply := after.chain.supply) && !w.hub.params.paused
  {
    hide CheckedState, LoweredByCheck;
  }

  lemma {:induction false} DeliverFollows(w: World, q: Queries, messages: seq<Message>)
    requires Deliver(w, q, messages).Ok?
    ensures Follows(w, Deliver(w, q, messages).value)
  {
    hide DeliverOne;
    if messages != [] {
      DeliverFollows(w, q, messages[..|messages| - 1]);
      DeliverOneFollows(Deliver(w, q, messages[..|messages| - 1]).value, q, messages[|messages| - 1]);
    }
  }

  lemma TransactFollows(w: World, q: Queries, info: Info, msg: ExecuteMsg) returns (l: Ledger)
    requires Transact(w, q, info, msg).Ok?
    ensures Execute(w.hub, EnvOf(w.chain), q, info, msg).Ok?
    ensures l == Execute(w.hub, EnvOf(w.chain), q, info, msg).value.ledger
    ensures var after := Transact(w, q, info, msg).value.hub; after == l.(state := after.state)
  {
    hide Execute, Booked, Deliver;
    var o := Execute(w.hub, EnvOf(w.chain), q, info, msg).value;
    l := o.ledger;
    DeliverFollows(World(l, Funded(w, info), Booked(w, q, info, msg, l)), q, o.messages);
  }

  lemma PaymentIsFunds(funds: seq<Coin>, denom: string)
    requires Payment(funds, denom).Ok?
    ensures Payment(funds, denom).value == SumOfDenom(funds, denom) > 0
  {
    assert funds[..0] == [];
  }

  // ---------------------------------------------------------------- staking

  /** What staking does to the ledger, and the messages it sends. */
  lemma StakeEffect(l: Ledger, env: Env, q: Queries, info: Info, kind: StakeType)
    returns (o: Outcome, st: State, payment: nat, minted: nat, queued: seq<Message>)
    requires Staked(l, env, q, info, kind).Ok?
    ensures Staked(l, env, q, info, kind) == Ok(o)
    ensures CheckedState(l, env, q) == Ok(st)
    ensures payment == SumOfDenom(info.funds, l.params.stakingCoinDenom) > 0
    ensures MintAmount(kind, payment, st.lstExchangeRate) == Ok(minted)
    ensures l.config.lstToken.Some?
    ensures o.ledger == l.(state := o.ledger.state, pending := o.ledger.pending)
    ensures o.ledger.state == st.(totalStakedAmount := st.totalStakedAmount + payment)
                                .UpdateLstExchangeRate(q.supply + minted, l.currentBatch.requestedLstTokenAmount)
    ensures UpdatePending(l.pending, env.height, payment, 0) == Ok(o.ledger.pending)
    ensures o.messages == queued + if kind == LSTMint then [Mint(info.sender, minted)] else []
    ensures Delegations(payment, Totals(q.validators)).Ok?
    ensures queued == DelegateMessages(q.validators, Delegations(payment, Totals(q.validators)).value)
    ensures QueuedStake(queued) == payment && QueuedUnstake(queued) == 0
    ensures forall v :: UnstakedFrom(queued, v) == 0
    ensures forall m | m in queued :: m.Delegate?
  {
    hide CheckedState, UpdatePending, Delegations, DelegateMessages, MintAmount, Payment, SumOfDenom, FromRatio;
    PaymentIsFunds(info.funds, l.params.stakingCoinDenom);
    o := Staked(l, env, q, info, kind).value;
    st := CheckedState(l, env, q).value;
    payment := Payment(info.funds, l.params.stakingCoinDenom).value;
    minted := MintAmount(kind, payment, st.lstExchangeRate).value;
    queued := DelegateMessages(q.validators, Delegations(payment, Totals(q.validators)).value);
    assert Delegations(payment, Totals(q.validators)).Ok?;
    hide Staked;
    DelegationsAddUp(payment, Totals(q.validators));
    DelegateMessagesTotal(q.validators, Delegations(payment, Totals(q.validators)).value);
  }

  function KindOf(msg: ExecuteMsg): StakeType {
    if msg.Stake? then LSTMint else StakeType.StakeRewards
  }

  lemma StakeIsExecuted(l: Ledger, env: Env, q: Queries, info: Info, msg: ExecuteMsg)
    requires msg.Stake? || msg.StakeRewards?
    requires Execute(l, env, q, info, msg).Ok?
    ensures Execute(l, env, q, info, msg) == Staked(l, env, q, info, KindOf(msg))
  {
    hide Staked;
  }

  /** The world after a stake: the payment is in the bank and queued in full, and the tokens are minted. */
  lemma StakeTransaction(w: World, q: Queries, info: Info, msg: ExecuteMsg)
    returns (o: Outcome, st: State, payment: nat, minted: nat, queued: seq<Message>)
    requires msg.Stake? || msg.StakeRewards?
    requires Transact(w, q, info, msg).Ok?
    ensures CheckedState(w.hub, EnvOf(w.chain), q) == Ok(st)
    ensures payment == SumOfDenom(info.funds, w.hub.params.stakingCoinDenom) > 0
    ensures MintAmount(KindOf(msg), payment, st.lstExchangeRate) == Ok(minted)
    ensures w.hub.config.lstToken.Some?
    ensures o.ledger == w.hub.(state := o.ledger.state, pending := o.ledger.pending)
    ensures o.ledger.state == st.(totalStakedAmount := st.totalStakedAmount + payment)
                                .UpdateLstExchangeRate(q.supply + minted, w.hub.currentBatch.requestedLstTokenAmount)
    ensures UpdatePending(w.hub.pending, w.chain.height, payment, 0) == Ok(o.ledger.pending)
    ensures QueuedStake(queued) == payment && QueuedUnstake(queued) == 0
    ensures forall v :: UnstakedFrom(queued, v) == 0
    ensures Transact(w, q, info, msg)
         == Ok(World(o.ledger,
                     w.chain.(bank := w.chain.bank + payment, supply := w.chain.supply + minted,
                              queue := w.chain.queue + queued),
                     Booked(w, q, info, msg, o.ledger)))
  {
    hide Staked, CheckedState, Booked, UpdatePending, BurnTokens, Delegations, DelegateMessages, Totals, FromRatio,
         QueuedStake, QueuedUnstake, UnstakedFrom, DecimalDivision;
    StakeIsExecuted(w.hub, EnvOf(w.chain), q, info, msg);
    hide Execute;
    o, st, payment, minted, queued := StakeEffect(w.hub, EnvOf(w.chain), q, info, KindOf(msg));
    var mid := World(o.ledger, Funded(w, info), Booked(w, q, info, msg, o.ledger));
    assert Transact(w, q, info, msg) == Deliver(mid, q, o.messages);
    hide Transact;
    if msg.Stake? {
      assert o.messages == queued + [Mint(info.sender, minted)];
      DeliverThen(mid, q, queued, Mint(info.sender, minted));
    } else {
      assert o.messages == queued;
      DeliverQueued(mid, q, queued);
    }
  }

  lemma StakeKeepsSound(w: World, q: Queries, info: Info, msg: ExecuteMsg)
    requires Sound(w) && Possible(w, Tx(q, info, msg))
    requires msg.Stake? || msg.StakeRewards?
    requires Transact(w, q, info, msg).Ok?
    ensures Sound(Transact(w, q, info, msg).value)
  {
    hide Transact;
    hide ActualState, UpdatePending, MintAmount, Structured, Solvent, Tracks, RateCovered, Unreleased;
    var l := w.hub;
    var o, st, payment, minted, queued := StakeTransaction(w, q, info, msg);
    var requested := l.currentBatch.requestedLstTokenAmount;
    CheckKeepsRateBound(l.state, l.params.stakingCoinDenom, requested, l.pending, EnvOf(w.chain), q);
    RefreshedRate(st.(totalStakedAmount := st.totalStakedAmount + payment), q.supply + minted, requested, 0);
    UpdateKeepsTracks(l.pending, w.chain, queued, o.ledger.pending);
    QueueAppend(w.chain.queue, queued);
    var after := Transact(w, q, info, msg).value;
    TracksIgnoresCoins(o.ledger.pending, w.chain.(queue := w.chain.queue + queued), after.chain);
  }

  lemma TracksIgnoresCoins(p: PendingDelegation, c: Chain, d: Chain)
    requires Tracks(p, c)
    requires d == c.(bank := d.bank, supply := d.supply, delegated := d.delegated, unbonding := d.unbonding)
    ensures Tracks(p, d)
  {
  }

  // ---------------------------------------------------------------- unstaking

  lemma FewerTokens(st: State, tokens: nat, fewer: nat)
    requires RateBound(st, tokens) && fewer <= tokens
    ensures RateBound(st, fewer)
  {
    assert st.lstExchangeRate * fewer <= st.lstExchangeRate * tokens;
  }

  /** A batch that leaves at the stored rate takes its tokens' worth, rounded down, from the stake:
      there is that much, and the rest of the tokens are still covered. */
  lemma BatchKeepsRateBound(st: State, tokens: nat, requested: nat)
    requires RateBound(st, tokens) && requested <= tokens
    requires DecimalMultiplication(requested, st.lstExchangeRate) <= st.totalStakedAmount
    ensures RateBound(st.(totalStakedAmount := st.totalStakedAmount - DecimalMultiplication(requested,
                                                                                            st.lstExchangeRate)),
                      tokens - requested)
  {
    MultiplicationBounds(requested, st.lstExchangeRate);
    assert st.lstExchangeRate * (tokens - requested) == st.lstExchangeRate * tokens - requested * st.lstExchangeRate;
  }

  lemma CheckWritesTotalAndRate(st: State, denom: string, requested: nat, pending: PendingDelegation, env: Env,
                                q: Queries)
    requires ActualState(st, denom, requested, pending, env, q).Ok?
    ensures var after := ActualState(st, denom, requested, pending, env, q).value;
            after == st.(totalStakedAmount := after.totalStakedAmount, lstExchangeRate := after.lstExchangeRate)
  {
  }

  /** A batch is undelegated whole, at the stored rate, and recorded at that rate. */
  lemma BatchProcessedEffect(l: Ledger, batch: CurrentBatch, env: Env, q: Queries) returns (o: Outcome, unstaked: nat)
    requires BatchProcessed(l, batch, env, q).Ok?
    ensures BatchProcessed(l, batch, env, q) == Ok(o)
    ensures 0 < unstaked == DecimalMultiplication(batch.requestedLstTokenAmount, l.state.lstExchangeRate)
            <= l.state.totalStakedAmount
    ensures UpdatePending(l.pending, env.height, 0, unstaked) == Ok(o.ledger.pending)
    ensures o.ledger == l.(state := l.state.(totalStakedAmount := l.state.totalStakedAmount - unstaked,
                                             lastUnbondedTime := env.time),
                           pending := o.ledger.pending,
                           history := l.history[batch.id :=
                             UnstakeHistory(batch.id, env.time, batch.requestedLstTokenAmount,
                                            l.state.lstExchangeRate, l.state.lstExchangeRate, false)],
                           currentBatch := CurrentBatch(batch.id + 1, 0))
    ensures Undelegations(unstaked, Totals(q.validators)).Ok?
    ensures o.messages == UndelegateMessages(q.validators, Undelegations(unstaked, Totals(q.validators)).value)
    ensures QueuedUnstake(o.messages) == unstaked && QueuedStake(o.messages) == 0
    ensures forall m | m in o.messages :: m.Undelegate?
  {
    hide UpdatePending, DecimalMultiplication, Undelegations, UndelegateMessages;
    o := BatchProcessed(l, batch, env, q).value;
    unstaked := DecimalMultiplication(batch.requestedLstTokenAmount, l.state.lstExchangeRate);
    var parts := Undelegations(unstaked, Totals(q.validators)).value;
    UndelegationsAddUp(unstaked, Totals(q.validators));
    UndelegateMessagesTotal(q.validators, parts);
  }

  /** What the epoch check does to the ledger: it stores the batch, or undelegates it. */
  lemma BatchEpochEffect(l: Ledger, batch: CurrentBatch, env: Env, q: Queries)
    returns (o: Outcome, st: State)
    requires BatchEpochChecked(l, batch, env, q).Ok?
    ensures BatchEpochChecked(l, batch, env, q) == Ok(o)
    ensures CheckedState(l, env, q) == Ok(st)
    ensures env.time >= st.lastUnbondedTime
    ensures st == l.state.(totalStakedAmount := st.totalStakedAmount, lstExchangeRate := st.lstExchangeRate)
    ensures if env.time - st.lastUnbondedTime > l.params.epochLength
            then BatchProcessed(l.(state := st), batch, env, q) == Ok(o)
            else o == Outcome(l.(state := st, currentBatch := batch), [])
  {
    CheckWritesTotalAndRate(l.state, l.params.stakingCoinDenom, l.currentBatch.requestedLstTokenAmount, l.pending, env,
                            q);
    hide ActualState, BatchProcessed;
    o := BatchEpochChecked(l, batch, env, q).value;
    st := CheckedState(l, env, q).value;
  }

  /** The world with the state a slashing check stores, and its write-off booked. */
  ghost function CheckedWorld(w: World, stored: CurrentBatch, q: Queries, st: State): World {
    w.(hub := w.hub.(state := st),
       books := w.books.(writtenOff := w.books.writtenOff
                         + LoweredByCheck(w.hub.(currentBatch := stored), EnvOf(w.chain), q)))
  }

  /** A slashing check, which counts the tokens of the stored batch. */
  lemma CheckKeepsSoundFor(w: World, stored: CurrentBatch, q: Queries, st: State)
    requires SoundFor(w, q.supply + stored.requestedLstTokenAmount)
    requires CheckedState(w.hub.(currentBatch := stored), EnvOf(w.chain), q) == Ok(st)
    ensures SoundFor(CheckedWorld(w, stored, q, st), q.supply + stored.requestedLstTokenAmount)
  {
    hide ActualState, Structured, Solvent, Tracks, RateCovered, Unreleased;
    var l := w.hub;
    CheckKeepsRateBound(l.state, l.params.stakingCoinDenom, stored.requestedLstTokenAmount, l.pending, EnvOf(w.chain),
                        q);
  }

  /** The undelegation of the batch in memory. */
  lemma BatchKeepsSoundFor(w: World, stored: CurrentBatch, q: Queries, tokens: nat) returns (o: Outcome, after: World)
    requires SoundFor(w, tokens) && w.hub.currentBatch.requestedLstTokenAmount <= tokens
    requires w.hub.state.lastUnbondedTime < EnvOf(w.chain).time
    requires BatchProcessed(w.hub.(currentBatch := stored), w.hub.currentBatch, EnvOf(w.chain), q).Ok?
    ensures BatchProcessed(w.hub.(currentBatch := stored), w.hub.currentBatch, EnvOf(w.chain), q) == Ok(o)
    ensures forall m | m in o.messages :: m.Undelegate?
    ensures o.ledger.state.lastProcessedBatch == w.hub.state.lastProcessedBatch
    ensures o.ledger.currentBatch.requestedLstTokenAmount == 0
    ensures after == World(o.ledger, w.chain.(queue := w.chain.queue + o.messages), w.books)
    ensures SoundFor(after, tokens - w.hub.currentBatch.requestedLstTokenAmount)
  {
    hide BatchProcessed, UpdatePending, Structured, Solvent, Tracks, RateCovered, DecimalMultiplication, Undelegations,
         Unreleased, QueuedStake, QueuedUnstake, UndelegateMessages, Totals;
    var l, batch, env := w.hub, w.hub.currentBatch, EnvOf(w.chain);
    var st := l.state;
    var unstaked;
    o, unstaked := BatchProcessedEffect(l.(currentBatch := stored), batch, env, q);
    after := World(o.ledger, w.chain.(queue := w.chain.queue + o.messages), w.books);
    var record := o.ledger.history[batch.id];
    UndelegateKeepsStructure(batch, l.waitList, l.history, st.lastProcessedBatch, st.lastUnbondedTime, record);
    CurrentHasNoRecord(batch, l.waitList, l.history, st.lastProcessedBatch, st.lastUnbondedTime);
    UndelegateKeepsSolvent(l.waitList, l.history, batch.id, record, st.unclaimedUnstakedBalance, w.books.overpaid,
                           w.books.dust);
    UndelegateAddsCost(batch, l.history, st.lastProcessedBatch, record);
    BatchKeepsRateBound(st, tokens, batch.requestedLstTokenAmount);
    UpdateKeepsTracks(l.pending, w.chain, o.messages, o.ledger.pending);
    QueueAppend(w.chain.queue, o.messages);
  }

  /** The epoch check, from a world whose batch is the one in memory. `stored` is the batch its
      slashing check reads, and `tokens` what that check counts. */
  lemma EpochKeepsSound(w: World, stored: CurrentBatch, q: Queries, tokens: nat) returns (o: Outcome, after: World)
    requires SoundFor(w, tokens)
    requires tokens == q.supply + stored.requestedLstTokenAmount >= w.hub.currentBatch.requestedLstTokenAmount
    requires BatchEpochChecked(w.hub.(currentBatch := stored), w.hub.currentBatch, EnvOf(w.chain), q).Ok?
    ensures BatchEpochChecked(w.hub.(currentBatch := stored), w.hub.currentBatch, EnvOf(w.chain), q) == Ok(o)
    ensures forall m | m in o.messages :: m.Undelegate?
    ensures o.ledger.state.lastProcessedBatch == w.hub.state.lastProcessedBatch
    ensures after == World(o.ledger, w.chain.(queue := w.chain.queue + o.messages),
                           w.books.(writtenOff := w.books.writtenOff
                                      + LoweredByCheck(w.hub.(currentBatch := stored), EnvOf(w.chain), q)))
    ensures SoundFor(after,
                     tokens - w.hub.currentBatch.requestedLstTokenAmount
                       + o.ledger.currentBatch.requestedLstTokenAmount)
  {
    hide SoundFor, CheckedState, LoweredByCheck, BatchEpochChecked, BatchProcessed;
    var l, batch, env := w.hub.(currentBatch := stored), w.hub.currentBatch, EnvOf(w.chain);
    var st;
    o, st := BatchEpochEffect(l, batch, env, q);
    CheckKeepsSoundFor(w, stored, q, st);
    var checked := CheckedWorld(w, stored, q, st);
    if env.time - st.lastUnbondedTime > l.params.epochLength {
      var o1;
      o1, after := BatchKeepsSoundFor(checked, stored, q, tokens);
    } else {
      assert w.chain.queue + o.messages == w.chain.queue;
      after := checked;
    }
  }

  lemma CurrentHasNoRecord(batch: CurrentBatch, waitList: WaitList, history: History, processed: nat, lastUnbonded: nat)
    requires Structured(batch, waitList, history, processed, lastUnbonded)
    ensures batch.id !in history && processed < batch.id
  {
  }

  lemma UndelegateKeepsSolvent(waitList: WaitList, history: History, id: nat, record: UnstakeHistory,
                               unclaimed: nat, overpaid: nat, dust: nat)
    requires Solvent(waitList, history, unclaimed, overpaid, dust)
    requires id !in history && !record.released
    ensures Solvent(waitList, history[id := record], unclaimed, overpaid, dust)
  {
    UndelegateKeepsClaims(waitList, history, id, record);
  }

  lemma RecordKeepsSound(w: World, user: Addr, amount: nat) returns (after: World)
    requires Sound(w)
    ensures after == w.(hub := w.hub.(
                        waitList := Recorded(w.hub.waitList, user, w.hub.currentBatch.id, amount),
                        currentBatch := w.hub.currentBatch.(
                          requestedLstTokenAmount := w.hub.currentBatch.requestedLstTokenAmount + amount)))
    ensures SoundFor(after, Tokens(w))
  {
    hide Structured, Tracks, RateCovered, CostUpTo, Recorded, SumValues, ClaimMap;
    var l := w.hub;
    RecordKeepsStructure(l.currentBatch, l.waitList, l.history, l.state.lastProcessedBatch, l.state.lastUnbondedTime,
                         user, amount);
    CurrentHasNoRecord(l.currentBatch, l.waitList, l.history, l.state.lastProcessedBatch, l.state.lastUnbondedTime);
    RecordKeepsClaims(l.waitList, l.history, user, l.currentBatch.id, amount);
    after := w.(hub := l.(waitList := Recorded(l.waitList, user, l.currentBatch.id, amount),
                          currentBatch := l.currentBatch.(
                            requestedLstTokenAmount := l.currentBatch.requestedLstTokenAmount + amount)));
  }

  /** A burn, with the slashing check the token sends the hub for it. */
  lemma BurnKeepsSound(w: World, q: Queries, amount: nat, tokens: nat)
    requires SoundFor(w, tokens)
    requires BurnTokens(w, q, amount).Ok?
    requires w.chain.supply >= amount ==> tokens >= w.chain.supply - amount + w.hub.currentBatch.requestedLstTokenAmount
    ensures Sound(BurnTokens(w, q, amount).value)
  {
    hide ActualState, Structured, Solvent, Tracks, RateCovered, Unreleased;
    var l := w.hub;
    var supply := w.chain.supply - amount;
    FewerTokens(l.state, tokens, supply + l.currentBatch.requestedLstTokenAmount);
    CheckKeepsRateBound(l.state, l.params.stakingCoinDenom, l.currentBatch.requestedLstTokenAmount, l.pending,
                        EnvOf(w.chain), q.(supply := supply));
    TracksIgnoresCoins(l.pending, w.chain, w.chain.(supply := supply));
  }
}
