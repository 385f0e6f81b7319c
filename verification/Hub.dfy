/** The staking hub: its storage items as fields, its handlers as methods that write them one by one
    (contracts/lst_staking_hub/src). A handler that fails may leave some of its writes behind;
    `Execute` undoes them, as the contract runtime does. */
module StakingHub {
  import opened Wrappers
  import opened FixedPoint
  import opened Delegation
  import opened PendingEpoch
  import opened HubTypes
  import opened Claims
  import opened Release
  import H = Handlers

  class Hub {
    var config: Config
    var params: Parameters
    var state: State
    var currentBatch: CurrentBatch
    var waitList: WaitList
    var history: History
    var pending: PendingDelegation

    function Stored(): Ledger
      reads this
    {
      Ledger(config, params, state, currentBatch, waitList, history, pending)
    }

    constructor (l: Ledger)
      ensures Stored() == l
    {
      config := l.config;
      params := l.params;
      state := l.state;
      currentBatch := l.currentBatch;
      waitList := l.waitList;
      history := l.history;
      pending := l.pending;
    }

    method Restore(l: Ledger)
      modifies this
      ensures Stored() == l
    {
      config := l.config;
      params := l.params;
      state := l.state;
      currentBatch := l.currentBatch;
      waitList := l.waitList;
      history := l.history;
      pending := l.pending;
    }

    static method Instantiate(owner: Addr, params: Parameters, epochLengthBlocks: nat, epochStart: nat, env: Env)
      returns (r: Result<Hub>)
      ensures var spec := H.Instantiate(owner, params, epochLengthBlocks, epochStart, env);
              if spec.Ok? then r.Ok? && fresh(r.value) && r.value.Stored() == spec.value else r == Err(spec.error)
    {
      if params.epochLength > H.MAX_EPOCH_LENGTH {
        return Err(InvalidEpochLength);
      }
      if params.epochLength < epochLengthBlocks * H.AVERAGE_BLOCK_TIME {
        return Err(InvalidEpochLength);
      }
      if params.unstakingPeriod > H.MAX_UNSTAKING_PERIOD {
        return Err(InvalidUnstakingPeriod);
      }
      if params.epochLength >= params.unstakingPeriod {
        return Err(InvalidPeriods);
      }
      var hub := new Hub(Ledger(Config(owner, None, None, None), params.(paused := false),
                                State(ONE, 0, env.time, 0, env.time, 0), CurrentBatch(1, 0), map[], map[],
                                PendingDelegation(epochLengthBlocks, epochStart, 0, 0)));
      r := Ok(hub);
    }

    // -------------------------------------------------------------- pending delegation

    method UpdatePendingDelegationAmount(env: Env, staking: Option<nat>, unstaking: Option<nat>) returns (r: Result<()>)
      modifies this`pending
      ensures var updated := UpdatePending(old(pending), env.height,
                                           if staking.Some? then staking.value else 0,
                                           if unstaking.Some? then unstaking.value else 0);
              if updated.Ok? then r.Ok? && pending == updated.value
                else r == Err(updated.error) && pending == old(pending)
    {
      var p := pending;
      var s := if staking.Some? then staking.value else 0;
      var u := if unstaking.Some? then unstaking.value else 0;
      var passedBlocks :- Minus(env.height, p.stakingEpochStartBlockHeight, Panic);
      if passedBlocks < p.stakingEpochLengthBlocks {
        p := p.(pendingStakingAmount := p.pendingStakingAmount + s);
        p := p.(pendingUnstakingAmount := p.pendingUnstakingAmount + u);
      } else {
        if p.stakingEpochLengthBlocks == 0 {
          return Err(Panic);
        }
        p := p.(pendingStakingAmount := s);
        p := p.(pendingUnstakingAmount := u);
        var epochsPassed := (env.height - p.stakingEpochStartBlockHeight) / p.stakingEpochLengthBlocks;
        p := p.(stakingEpochStartBlockHeight := p.stakingEpochStartBlockHeight
                + epochsPassed * p.stakingEpochLengthBlocks);
      }
      pending := p;
      r := Ok(());
    }

    method QueryPendingDelegation(env: Env) returns (r: Result<PendingDelegation>)
      ensures r == UpdatePending(pending, env.height, 0, 0)
    {
      QueryIsEmptyUpdate(pending, env.height);
      var p := pending;
      var passedBlocks :- Minus(env.height, p.stakingEpochStartBlockHeight, Panic);
      if passedBlocks >= p.stakingEpochLengthBlocks {
        p := p.(pendingStakingAmount := 0);
        p := p.(pendingUnstakingAmount := 0);
        if p.stakingEpochLengthBlocks == 0 {
          return Err(Panic);
        }
        var epochsPassed := passedBlocks / p.stakingEpochLengthBlocks;
        p := p.(stakingEpochStartBlockHeight := p.stakingEpochStartBlockHeight
                + epochsPassed * p.stakingEpochLengthBlocks);
      }
      r := Ok(p);
    }

    // -------------------------------------------------------------- slashing

    method QueryActualState(env: Env, q: Queries, loaded: State) returns (r: Result<State>)
      ensures r == H.CheckedState(Stored().(state := loaded), env, q)
    {
      var st := loaded;
      if q.delegations == [] {
        return Ok(st);
      }
      var actualTotalStaked := 0;
      for i := 0 to |q.delegations|
        invariant actualTotalStaked == SumOfDenom(q.delegations[..i], params.stakingCoinDenom)
      {
        assert q.delegations[..i + 1][..i] == q.delegations[..i];
        if q.delegations[i].denom == params.stakingCoinDenom {
          actualTotalStaked := actualTotalStaked + q.delegations[i].amount;
        }
      }
      assert q.delegations[..|q.delegations|] == q.delegations;
      var amounts :- GetPending(pending, env.height);
      var withoutStaked :- Minus(st.totalStakedAmount, amounts.0, Panic);
      var stateTotalStaked := withoutStaked + amounts.1;
      if stateTotalStaked == 0 {
        return Ok(st);
      }
      if stateTotalStaked > actualTotalStaked {
        var total :- Minus(actualTotalStaked + amounts.0, amounts.1, Panic);
        st := st.(totalStakedAmount := total);
      }
      var _ :- OkOr(config.lstToken, LstTokenNotSet);
      st := st.UpdateLstExchangeRate(q.supply, currentBatch.requestedLstTokenAmount);
      r := Ok(st);
    }

    method CheckSlashing(env: Env, q: Queries) returns (r: Result<State>)
      modifies this`state
      ensures r == H.CheckedState(old(Stored()), env, q)
      ensures Stored() == if r.Ok? then old(Stored()).(state := r.value) else old(Stored())
    {
      var st :- QueryActualState(env, q, state);
      state := st;
      r := Ok(st);
    }

    // -------------------------------------------------------------- staking

    method PrepareDelegateMessages(validators: seq<ValidatorResponse>, parts: seq<nat>) returns (messages: seq<Message>)
      requires |validators| == |parts|
      ensures messages == H.DelegateMessages(validators, parts)
    {
      messages := [];
      for i := 0 to |parts|
        invariant messages == H.DelegateMessages(validators[..i], parts[..i])
      {
        assert parts[..i + 1][..i] == parts[..i] && validators[..i + 1][..i] == validators[..i];
        if parts[i] == 0 {
          continue;
        }
        messages := messages + [Delegate(validators[i].address, parts[i])];
      }
      assert parts[..|parts|] == parts && validators[..|parts|] == validators;
    }

    method ExecuteStake(env: Env, q: Queries, info: H.Info, kind: StakeType) returns (r: Result<seq<Message>>)
      modifies this
      ensures var spec := H.Staked(old(Stored()), env, q, info, kind);
              if spec.Ok? then r == Ok(spec.value.messages) && Stored() == spec.value.ledger else r == Err(spec.error)
    {
      hide H.ActualState, UpdatePending, Delegations, H.DelegateMessages, H.Payment;
      var dispatcher :- OkOr(config.rewardDispatcher, RewardDispatcherNotSet);
      if kind == StakeType.StakeRewards && info.sender != dispatcher {
        return Err(Unauthorized);
      }
      var requestedWithdrawalAmount := currentBatch.requestedLstTokenAmount;
      var payment :- H.Payment(info.funds, params.stakingCoinDenom);
      var st :- CheckSlashing(env, q);
      var _ :- OkOr(config.lstToken, Panic);
      var totalSupply := q.supply;
      var mintAmount :- H.MintAmount(kind, payment, st.lstExchangeRate);
      totalSupply := totalSupply + mintAmount;
      st := st.(totalStakedAmount := st.totalStakedAmount + payment);
      st := st.UpdateLstExchangeRate(totalSupply, requestedWithdrawalAmount);
      var _ :- UpdatePendingDelegationAmount(env, Some(payment), None);
      state := st;
      var _ :- OkOr(config.validatorsRegistry, ValidatorRegistryNotSet);
      var parts :- CalculateDelegations(payment, q.validators);
      var messages := PrepareDelegateMessages(q.validators, parts);
      if kind == StakeType.StakeRewards {
        assert messages + [] == messages;
        return Ok(messages);
      }
      r := Ok(messages + [Mint(info.sender, mintAmount)]);
    }

    // -------------------------------------------------------------- unstaking

    method UpdateUnstakeBatchWaitList(batch: CurrentBatch, sender: Addr, amount: nat) returns (updated: CurrentBatch)
      modifies this`waitList
      ensures updated == batch.(requestedLstTokenAmount := batch.requestedLstTokenAmount + amount)
      ensures waitList == Recorded(old(waitList), sender, batch.id, amount)
    {
      updated := batch.(requestedLstTokenAmount := batch.requestedLstTokenAmount + amount);
      var newAmount := amount;
      if (sender, batch.id) in waitList {
        newAmount := waitList[(sender, batch.id)] + amount;
      }
      waitList := waitList[(sender, batch.id) := newAmount];
    }

    method PickValidatorForUndelegation(q: Queries, claim: nat) returns (r: Result<seq<Message>>)
      ensures var parts := Undelegations(claim, Totals(q.validators));
              if config.validatorsRegistry.None? then r == Err(ValidatorRegistryNotSet)
              else if parts.Err? then r == Err(parts.error)
              else |parts.value| == |q.validators| && r == Ok(H.UndelegateMessages(q.validators, parts.value))
    {
      var _ :- OkOr(config.validatorsRegistry, ValidatorRegistryNotSet);
      var parts :- CalculateUndelegations(claim, q.validators);
      var messages := [];
      for i := 0 to |parts|
        invariant messages == H.UndelegateMessages(q.validators[..i], parts[..i])
      {
        assert parts[..i + 1][..i] == parts[..i] && q.validators[..i + 1][..i] == q.validators[..i];
        if parts[i] == 0 {
          continue;
        }
        messages := messages + [Undelegate(q.validators[i].address, parts[i])];
      }
      assert parts[..|parts|] == parts && q.validators[..|parts|] == q.validators;
      r := Ok(messages);
    }

    method ProcessUndelegationsForBatch(env: Env, q: Queries, batch: CurrentBatch, loaded: State)
      returns (r: Result<(CurrentBatch, State, seq<Message>)>)
      requires loaded == state
      modifies this`pending, this`history
      ensures var spec := H.BatchProcessed(old(Stored()), batch, env, q);
              if spec.Err? then r == Err(spec.error)
              else
                && r.Ok?
                && old(Stored()).(pending := pending, history := history, currentBatch := r.value.0, state := r.value.1)
                   == spec.value.ledger
                && r.value.2 == spec.value.messages
    {
      var st := loaded;
      var unstakedAmountInBatch := DecimalMultiplication(batch.requestedLstTokenAmount, st.lstExchangeRate);
      var messages :- PickValidatorForUndelegation(q, unstakedAmountInBatch);
      var total :- Minus(st.totalStakedAmount, unstakedAmountInBatch, Overflow);
      st := st.(totalStakedAmount := total);
      var _ :- UpdatePendingDelegationAmount(env, None, Some(unstakedAmountInBatch));
      var record := UnstakeHistory(batch.id, env.time, batch.requestedLstTokenAmount,
                                   st.lstExchangeRate, st.lstExchangeRate, false);
      history := history[batch.id := record];
      var next := CurrentBatch(batch.id + 1, 0);
      st := st.(lastUnbondedTime := env.time);
      r := Ok((next, st, messages));
    }

    method CheckForUnstakeBatchEpochCompletion(env: Env, q: Queries, batch: CurrentBatch)
      returns (r: Result<seq<Message>>)
      modifies this
      ensures var spec := H.BatchEpochChecked(old(Stored()), batch, env, q);
              if spec.Ok? then r == Ok(spec.value.messages) && Stored() == spec.value.ledger else r == Err(spec.error)
    {
      var epochPeriod := params.epochLength;
      var updated := batch;
      var st :- CheckSlashing(env, q);
      var passedTime :- Minus(env.time, st.lastUnbondedTime, Panic);
      var messages := [];
      if passedTime > epochPeriod {
        var processed :- ProcessUndelegationsForBatch(env, q, updated, st);
        updated := processed.0;
        st := processed.1;
        messages := processed.2;
      }
      currentBatch := updated;
      state := st;
      r := Ok(messages);
    }

    method ExecuteUnstake(env: Env, q: Queries, amount: nat, sender: Addr, flow: UnstakeType)
      returns (r: Result<seq<Message>>)
      modifies this
      ensures var spec := H.Unstaked(old(Stored()), env, q, amount, sender, flow);
              if spec.Ok? then r == Ok(spec.value.messages) && Stored() == spec.value.ledger else r == Err(spec.error)
    {
      var batch := UpdateUnstakeBatchWaitList(currentBatch, sender, amount);
      var messages :- CheckForUnstakeBatchEpochCompletion(env, q, batch);
      var _ :- OkOr(config.lstToken, LstTokenNotSet);
      match flow {
        case BurnFlow =>
          messages := messages + [Burn(amount)];
        case BurnFromFlow =>
          if q.tokenBalance < amount {
            return Err(InsufficientFunds);
          }
          if q.allowance < amount {
            return Err(InsufficientAllowance);
          }
          messages := messages + [BurnFrom(sender, amount)];
      }
      r := Ok(messages);
    }

    method ExecuteProcessUndelegations(env: Env, q: Queries) returns (r: Result<seq<Message>>)
      modifies this
      ensures var spec := H.UndelegationsProcessed(old(Stored()), env, q);
              if spec.Ok? then r == Ok(spec.value.messages) && Stored() == spec.value.ledger else r == Err(spec.error)
    {
      if currentBatch.requestedLstTokenAmount == 0 {
        return Ok([]);
      }
      r := CheckForUnstakeBatchEpochCompletion(env, q, currentBatch);
    }

    // -------------------------------------------------------------- releasing

    /** Collects the batches one pass releases, oldest first. */
    method GetUnprocessedHistories(startBatch: nat, cutoff: nat, balance: nat)
      returns (histories: seq<(nat, UnstakeHistory)>, remaining: nat)
      ensures (startBatch + |histories|, remaining) == ReleasePass(history, startBatch + 1, cutoff, balance)
      ensures forall i | 0 <= i < |histories| ::
                histories[i].0 == startBatch + 1 + i && histories[i].0 in history
                  && histories[i].1 == history[histories[i].0]
    {
      histories := [];
      var batchId := startBatch + 1;
      remaining := balance;
      while true
        invariant batchId == startBatch + 1 + |histories|
        invariant ReleasePass(history, batchId, cutoff, remaining)
          == ReleasePass(history, startBatch + 1, cutoff, balance)
        invariant forall i | 0 <= i < |histories| ::
                      histories[i].0 == startBatch + 1 + i && histories[i].0 in history
                        && histories[i].1 == history[histories[i].0]
        decreases Ahead(history, batchId)
      {
        if batchId !in history {
          break;
        }
        var h := history[batchId];
        if h.time > cutoff {
          break;
        }
        if h.released {
          break;
        }
        var requiredAmount := DecimalMultiplication(h.lstTokenAmount, h.lstWithdrawRate);
        if remaining < requiredAmount {
          break;
        }
        histories := histories + [(batchId, h)];
        remaining := remaining - requiredAmount;
        AheadShrinks(history, batchId);
        batchId := batchId + 1;
      }
    }

    method ProcessWithdrawRate(cutoff: nat, hubBalance: nat) returns (r: Result<nat>)
      modifies this`history, this`state
      ensures var spec := H.WithdrawRateProcessed(old(Stored()), cutoff, hubBalance);
              if spec.Ok? then Stored() == spec.value.0 && r == Ok(spec.value.1) else r == Err(spec.error)
    {
      var st := state;
      ghost var before := history;
      var first := st.lastProcessedBatch;
      var totalUnstakedAmount :- Minus(hubBalance, st.unclaimedUnstakedBalance, Overflow);
      var histories, leftOver := GetUnprocessedHistories(first, cutoff, totalUnstakedAmount);
      assert history == MarkReleased(before, first, first);
      if histories == [] {
        return Ok(leftOver);
      }
      for i := 0 to |histories|
        invariant history == MarkReleased(before, first, first + i)
        invariant state == old(state) && st == state.(lastProcessedBatch := first + i)
      {
        var (batchId, h) := histories[i];
        history := history[batchId := h.(released := true)];
        st := st.(lastProcessedBatch := batchId);
      }
      state := st;
      r := Ok(leftOver);
    }

    method ExecuteProcessWithdrawRequests(env: Env, q: Queries) returns (r: Result<seq<Message>>)
      modifies this
      ensures var spec := H.WithdrawRequestsProcessed(old(Stored()), env, q);
              if spec.Ok? then r == Ok(spec.value.messages) && Stored() == spec.value.ledger else r == Err(spec.error)
    {
      var unstakeCutoffTime :- Minus(env.time, params.unstakingPeriod, Panic);
      var amounts :- GetPending(pending, env.height);
      var actualFreeBalance :- Minus(q.balance, amounts.0, Overflow);
      var leftOver :- ProcessWithdrawRate(unstakeCutoffTime, actualFreeBalance);
      var unclaimed :- Minus(actualFreeBalance, leftOver, Overflow);
      state := state.(unclaimedUnstakedBalance := unclaimed);
      r := Ok([]);
    }

    // -------------------------------------------------------------- withdrawing

    method ProcessFinishedAmount(entries: seq<(nat, nat)>) returns (withdrawable: nat, deprecated: seq<nat>)
      ensures (withdrawable, deprecated) == Finished(history, entries)
    {
      withdrawable, deprecated := 0, [];
      for i := 0 to |entries|
        invariant (withdrawable, deprecated) == Finished(history, entries[..i])
      {
        assert entries[..i + 1][..i] == entries[..i];
        var (batchId, lstAmount) := entries[i];
        if batchId in history {
          if history[batchId].released {
            deprecated := deprecated + [batchId];
            var amount := DecimalMultiplication(lstAmount, history[batchId].lstAppliedExchangeRate);
            withdrawable := withdrawable + amount;
          }
        }
      }
      assert entries[..|entries|] == entries;
    }

    method RemoveUnstakeWaitList(batchIds: seq<nat>, sender: Addr)
      modifies this`waitList
      ensures waitList == Without(old(waitList), sender, batchIds)
    {
      for i := 0 to |batchIds|
        invariant waitList == Without(old(waitList), sender, batchIds[..i])
      {
        assert batchIds[..i + 1] == batchIds[..i] + [batchIds[i]];
        waitList := waitList - {(sender, batchIds[i])};
      }
      assert batchIds[..|batchIds|] == batchIds;
    }

    method ExecuteWithdrawUnstaked(env: Env, q: Queries, sender: Addr, batchIds: Option<seq<nat>>)
      returns (r: Result<seq<Message>>)
      modifies this
      ensures var spec := H.Withdrawn(old(Stored()), env, q, sender, batchIds);
              if spec.Ok? then r == Ok(spec.value.messages) && Stored() == spec.value.ledger else r == Err(spec.error)
    {
      var unstakeCutoffTime :- Minus(env.time, params.unstakingPeriod, Panic);
      var amounts :- GetPending(pending, env.height);
      var actualFreeBalance :- Minus(q.balance, amounts.0, Overflow);
      var leftOver :- ProcessWithdrawRate(unstakeCutoffTime, actualFreeBalance);
      var withdrawAmount, deprecated :=
        ProcessFinishedAmount(ListedEntries(waitList, sender, H.AskedBatches(Stored(), sender, batchIds)));
      if withdrawAmount == 0 {
        return Err(NoWithdrawableAssets);
      }
      RemoveUnstakeWaitList(deprecated, sender);
      var afterPayout :- Minus(actualFreeBalance, withdrawAmount, Overflow);
      var unclaimed :- Minus(afterPayout, leftOver, Overflow);
      state := state.(unclaimedUnstakedBalance := unclaimed);
      r := Ok([Send(sender, withdrawAmount)]);
    }

    // -------------------------------------------------------------- dispatch

    method ExecuteUpdateParams(info: H.Info, pause: Option<bool>, epochLength: Option<nat>,
                               unstakingPeriod: Option<nat>)
      returns (r: Result<seq<Message>>)
      modifies this`params
      ensures var spec := H.UpdatedParams(old(params), pause, epochLength, unstakingPeriod);
              if info.sender != config.owner then r == Err(Unauthorized)
              else if spec.Ok? then r == Ok([]) && params == spec.value else r == Err(spec.error)
    {
      if info.sender != config.owner {
        return Err(Unauthorized);
      }
      var p := params;
      if epochLength.Some? && unstakingPeriod.Some? {
        if epochLength.value > H.MAX_EPOCH_LENGTH { return Err(InvalidEpochLength); }
        if unstakingPeriod.value > H.MAX_UNSTAKING_PERIOD { return Err(InvalidUnstakingPeriod); }
        if epochLength.value >= unstakingPeriod.value { return Err(InvalidPeriods); }
      } else {
        if epochLength.Some? {
          if epochLength.value > H.MAX_EPOCH_LENGTH { return Err(InvalidEpochLength); }
          if epochLength.value >= p.unstakingPeriod { return Err(InvalidPeriods); }
        }
        if unstakingPeriod.Some? {
          if unstakingPeriod.value > H.MAX_UNSTAKING_PERIOD { return Err(InvalidUnstakingPeriod); }
          if p.epochLength >= unstakingPeriod.value { return Err(InvalidPeriods); }
        }
      }
      if pause.Some? { p := p.(paused := pause.value); }
      if epochLength.Some? { p := p.(epochLength := epochLength.value); }
      if unstakingPeriod.Some? { p := p.(unstakingPeriod := unstakingPeriod.value); }
      params := p;
      r := Ok([]);
    }

    method ExecuteUpdateConfig(info: H.Info, owner: Option<Addr>, token: Option<Addr>, registry: Option<Addr>,
                               dispatcher: Option<Addr>)
      returns (r: Result<seq<Message>>)
      modifies this`config
      ensures var spec := H.ConfigUpdated(old(config), owner, token, registry, dispatcher);
              if info.sender != old(config).owner then r == Err(Unauthorized)
              else if spec.Ok? then
                r == Ok(if dispatcher.Some? then [SetWithdrawAddress(dispatcher.value)] else []) && config == spec.value
              else r == Err(spec.error)
    {
      if info.sender != config.owner {
        return Err(Unauthorized);
      }
      var c := config;
      var messages := [];
      if owner.Some? {
        c := c.(owner := owner.value);
      }
      if token.Some? {
        if c.lstToken.Some? {
          if c.lstToken != token {
            return Err(LstTokenAlreadySet);
          }
        } else {
          c := c.(lstToken := token);
        }
      }
      if registry.Some? {
        c := c.(validatorsRegistry := registry);
      }
      if dispatcher.Some? {
        c := c.(rewardDispatcher := dispatcher);
        messages := [SetWithdrawAddress(dispatcher.value)];
      }
      config := c;
      r := Ok(messages);
    }

    method ExecuteUpdateGlobalIndex(env: Env, q: Queries) returns (r: Result<seq<Message>>)
      modifies this`state
      ensures if config.rewardDispatcher.None? then r == Err(RewardDispatcherNotSet)
              else r == Ok(H.RewardMessages(|q.delegations|)) && state == old(state).(lastIndexModification := env.time)
    {
      var _ :- OkOr(config.rewardDispatcher, RewardDispatcherNotSet);
      var messages := [];
      for i := 0 to |q.delegations|
        invariant |messages| == i && forall j | 0 <= j < i :: messages[j] == WithdrawReward(j)
      {
        messages := messages + [WithdrawReward(i)];
      }
      messages := messages + [DispatchRewards];
      assert messages == H.RewardMessages(|q.delegations|);
      state := state.(lastIndexModification := env.time);
      r := Ok(messages);
    }

    method Dispatch(env: Env, q: Queries, info: H.Info, msg: H.ExecuteMsg) returns (r: Result<seq<Message>>)
      modifies this
      ensures var spec := H.Execute(old(Stored()), env, q, info, msg);
              if spec.Ok? then r == Ok(spec.value.messages) && Stored() == spec.value.ledger else r == Err(spec.error)
    {
      if msg.UpdateParams? {
        r := ExecuteUpdateParams(info, msg.pause, msg.epochLength, msg.unstakingPeriod);
        return;
      }
      if params.paused {
        return Err(HubPaused);
      }
      match msg {
        case Stake => r := ExecuteStake(env, q, info, LSTMint);
        case StakeRewards => r := ExecuteStake(env, q, info, StakeType.StakeRewards);
        case Unstake(amount) => r := ExecuteUnstake(env, q, amount, info.sender, BurnFromFlow);
        case ReceiveUnstake(sender, amount) =>
          var token :- OkOr(config.lstToken, LstTokenNotSet);
          if info.sender == token {
            r := ExecuteUnstake(env, q, amount, sender, BurnFlow);
          } else {
            r := Err(Unauthorized);
          }
        case WithdrawUnstaked => r := ExecuteWithdrawUnstaked(env, q, info.sender, None);
        case WithdrawUnstakedForBatches(batchIds) => r := ExecuteWithdrawUnstaked(env, q, info.sender, Some(batchIds));
        case CheckSlashing => var _ :- CheckSlashing(env, q); r := Ok([]);
        case UpdateConfig(owner, token, registry, dispatcher) =>
          r := ExecuteUpdateConfig(info, owner, token, registry, dispatcher);
        case RedelegateProxy(source, moves) =>
          var registry :- OkOr(config.validatorsRegistry, ValidatorRegistryNotSet);
          if info.sender == registry {
            r := Ok(H.RedelegateMessages(source, moves));
          } else {
            r := Err(Unauthorized);
          }
        case UpdateGlobalIndex => r := ExecuteUpdateGlobalIndex(env, q);
        case ProcessUndelegations => r := ExecuteProcessUndelegations(env, q);
        case ProcessWithdrawRequests => r := ExecuteProcessWithdrawRequests(env, q);
      }
    }

    /** One transaction: it does what the handler's function says, or it fails and changes nothing. */
    method Execute(env: Env, q: Queries, info: H.Info, msg: H.ExecuteMsg) returns (r: Result<seq<Message>>)
      modifies this
      ensures var spec := H.Execute(old(Stored()), env, q, info, msg);
              if spec.Ok? then r == Ok(spec.value.messages) && Stored() == spec.value.ledger
              else r == Err(spec.error) && Stored() == old(Stored())
    {
      var saved := Stored();
      r := Dispatch(env, q, info, msg);
      if r.Err? {
        Restore(saved);
      }
    }
  }
}
