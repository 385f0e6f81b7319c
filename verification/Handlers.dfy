/** The hub's handlers as functions of its storage (contracts/lst_staking_hub/src/contract.rs,
    stake.rs, unstake.rs, config.rs). The class in Hub.dfy runs them step by step; the proofs about
    whole runs reason about these functions. */
module Handlers {
  import opened Wrappers
  import opened FixedPoint
  import opened Delegation
  import opened PendingEpoch
  import opened HubTypes
  import opened Claims
  import opened Release

  const MAX_EPOCH_LENGTH: nat := 7 * 24 * 60 * 60
  const MAX_UNSTAKING_PERIOD: nat := 4 * 7 * 24 * 60 * 60
  const AVERAGE_BLOCK_TIME: nat := 20

  datatype ExecuteMsg =
    | Stake
    | StakeRewards
    | Unstake(amount: nat)
    | ReceiveUnstake(sender: Addr, amount: nat)
    | WithdrawUnstaked
    | WithdrawUnstakedForBatches(batchIds: seq<nat>)
    | CheckSlashing
    | ProcessUndelegations
    | ProcessWithdrawRequests
    | UpdateParams(pause: Option<bool>, epochLength: Option<nat>, unstakingPeriod: Option<nat>)
    | UpdateConfig(owner: Option<Addr>, token: Option<Addr>, registry: Option<Addr>, dispatcher: Option<Addr>)
    | RedelegateProxy(source: Addr, moves: seq<(Addr, nat)>)
    | UpdateGlobalIndex

  datatype Info = Info(sender: Addr, funds: seq<Coin>)

  // ---------------------------------------------------------------- instantiation and parameters

  /** The contracts around the hub are named afterwards. */
  function Instantiate(owner: Addr, params: Parameters, epochLengthBlocks: nat, epochStart: nat,
                       env: Env): Result<Ledger> {
    if params.epochLength > MAX_EPOCH_LENGTH then Err(InvalidEpochLength)
    else if params.epochLength < epochLengthBlocks * AVERAGE_BLOCK_TIME then Err(InvalidEpochLength)
    else if params.unstakingPeriod > MAX_UNSTAKING_PERIOD then Err(InvalidUnstakingPeriod)
    else if params.epochLength >= params.unstakingPeriod then Err(InvalidPeriods)
    else
      Ok(Ledger(Config(owner, None, None, None), params.(paused := false), State(ONE, 0, env.time, 0, env.time, 0),
                CurrentBatch(1, 0), map[], map[], PendingDelegation(epochLengthBlocks, epochStart, 0, 0)))
  }

  function UpdatedParams(params: Parameters, pause: Option<bool>, epochLength: Option<nat>,
                         unstakingPeriod: Option<nat>)
    : Result<Parameters>
  {
    var updated := params.(
      paused := if pause.Some? then pause.value else params.paused,
      epochLength := if epochLength.Some? then epochLength.value else params.epochLength,
      unstakingPeriod := if unstakingPeriod.Some? then unstakingPeriod.value else params.unstakingPeriod);
    if epochLength.Some? && epochLength.value > MAX_EPOCH_LENGTH then Err(InvalidEpochLength)
    else if epochLength.Some? && unstakingPeriod.None? && epochLength.value >= params.unstakingPeriod
      then Err(InvalidPeriods)
    else if unstakingPeriod.Some? && unstakingPeriod.value > MAX_UNSTAKING_PERIOD then Err(InvalidUnstakingPeriod)
    else if unstakingPeriod.Some? && updated.epochLength >= unstakingPeriod.value then Err(InvalidPeriods)
    else Ok(updated)
  }

  /** Once named, the token can be named again, but not changed. */
  function ConfigUpdated(config: Config, owner: Option<Addr>, token: Option<Addr>, registry: Option<Addr>,
                         dispatcher: Option<Addr>): Result<Config>
  {
    if token.Some? && config.lstToken.Some? && token != config.lstToken then Err(LstTokenAlreadySet)
    else
      Ok(config.(owner := if owner.Some? then owner.value else config.owner,
                 lstToken := if token.Some? then token else config.lstToken,
                 validatorsRegistry := if registry.Some? then registry else config.validatorsRegistry,
                 rewardDispatcher := if dispatcher.Some? then dispatcher else config.rewardDispatcher))
  }

  /** One message for each move, in order. */
  function RedelegateMessages(source: Addr, moves: seq<(Addr, nat)>): seq<Message> {
    seq(|moves|, i requires 0 <= i < |moves| => Redelegate(source, moves[i].0, moves[i].1))
  }

  /** Withdraws the reward of each delegation the chain lists, then has them dispatched. */
  function RewardMessages(delegations: nat): seq<Message> {
    seq(delegations, i requires 0 <= i < delegations => WithdrawReward(i)) + [DispatchRewards]
  }

  // ---------------------------------------------------------------- slashing

  /** `query_actual_state`: lowers the total to what the chain holds and refreshes the rate. */
  function ActualState(st: State, denom: string, requested: nat, pending: PendingDelegation, env: Env,
                       q: Queries): Result<State> {
    if q.delegations == [] then Ok(st)
    else
      var actual := SumOfDenom(q.delegations, denom);
      var (pendingStaked, pendingUnstaked) :- GetPending(pending, env.height);
      var withoutStaked :- Minus(st.totalStakedAmount, pendingStaked, Panic);
      var seen := withoutStaked + pendingUnstaked;
      if seen == 0 then Ok(st)
      else
        var total :-
          if seen > actual then Minus(actual + pendingStaked, pendingUnstaked, Panic) else Ok(st.totalStakedAmount);
        Ok(st.(totalStakedAmount := total).UpdateLstExchangeRate(q.supply, requested))
  }

  /** The check gets past its early returns, to where it asks for the token's supply. */
  predicate AsksSupply(st: State, pending: PendingDelegation, env: Env, q: Queries) {
    && q.delegations != []
    && GetPending(pending, env.height).Ok?
    && var (pendingStaked, pendingUnstaked) := GetPending(pending, env.height).value;
       st.totalStakedAmount + pendingUnstaked > pendingStaked
  }

  /** The state as the slashing check leaves it; it reads the stored batch. */
  function CheckedState(l: Ledger, env: Env, q: Queries): Result<State> {
    var st :- ActualState(l.state, l.params.stakingCoinDenom, l.currentBatch.requestedLstTokenAmount, l.pending, env,
                          q);
    if l.config.lstToken.None? && AsksSupply(l.state, l.pending, env, q) then Err(LstTokenNotSet) else Ok(st)
  }

  function SlashingChecked(l: Ledger, env: Env, q: Queries): Result<Ledger> {
    var st :- CheckedState(l, env, q);
    Ok(l.(state := st))
  }

  // ---------------------------------------------------------------- staking

  function Payment(funds: seq<Coin>, denom: string): Result<nat> {
    if |funds| > 1 then Err(OnlyOneCoinAllowed)
    else if |funds| == 1 && funds[0].denom == denom && funds[0].amount > 0 then Ok(funds[0].amount)
    else Err(InvalidAmount)
  }

  function MintAmount(kind: StakeType, payment: nat, rate: nat): Result<nat> {
    match kind
    case LSTMint => if rate == 0 then Err(Panic) else Ok(DecimalDivision(payment, rate))
    case StakeRewards => Ok(0)
  }

  /** One delegate message for each validator that gets something. */
  function DelegateMessages(validators: seq<ValidatorResponse>, parts: seq<nat>): seq<Message>
    requires |validators| == |parts|
  {
    if parts == [] then []
    else
      var n := |parts| - 1;
      DelegateMessages(validators[..n], parts[..n]) +
      if parts[n] == 0 then [] else [Delegate(validators[n].address, parts[n])]
  }

  function Staked(l: Ledger, env: Env, q: Queries, info: Info, kind: StakeType): Result<Outcome> {
    var dispatcher :- OkOr(l.config.rewardDispatcher, RewardDispatcherNotSet);
    if kind == StakeType.StakeRewards && info.sender != dispatcher then Err(Unauthorized)
    else
      var payment :- Payment(info.funds, l.params.stakingCoinDenom);
      var l1 :- SlashingChecked(l, env, q);
      var _ :- OkOr(l.config.lstToken, Panic);
      var minted :- MintAmount(kind, payment, l1.state.lstExchangeRate);
      var st := l1.state.(totalStakedAmount := l1.state.totalStakedAmount + payment)
                .UpdateLstExchangeRate(q.supply + minted, l.currentBatch.requestedLstTokenAmount);
      var pending :- UpdatePending(l1.pending, env.height, payment, 0);
      var _ :- OkOr(l.config.validatorsRegistry, ValidatorRegistryNotSet);
      var parts :- Delegations(payment, Totals(q.validators));
      Ok(Outcome(l1.(state := st, pending := pending),
                 DelegateMessages(q.validators, parts)
                 + if kind == StakeType.StakeRewards then [] else [Mint(info.sender, minted)]))
  }

  // ---------------------------------------------------------------- unstaking

  /** One undelegate message for each validator that loses something. */
  function UndelegateMessages(validators: seq<ValidatorResponse>, parts: seq<nat>): seq<Message>
    requires |validators| == |parts|
  {
    if parts == [] then []
    else
      var n := |parts| - 1;
      UndelegateMessages(validators[..n], parts[..n]) +
      if parts[n] == 0 then [] else [Undelegate(validators[n].address, parts[n])]
  }

  /** `process_undelegations_for_batch`: `batch` is the batch in memory, not yet stored. */
  function BatchProcessed(l: Ledger, batch: CurrentBatch, env: Env, q: Queries): Result<Outcome> {
    var rate := l.state.lstExchangeRate;
    var unstaked := DecimalMultiplication(batch.requestedLstTokenAmount, rate);
    var _ :- OkOr(l.config.validatorsRegistry, ValidatorRegistryNotSet);
    var parts :- Undelegations(unstaked, Totals(q.validators));
    var total :- Minus(l.state.totalStakedAmount, unstaked, Overflow);
    var pending :- UpdatePending(l.pending, env.height, 0, unstaked);
    var record := UnstakeHistory(batch.id, env.time, batch.requestedLstTokenAmount, rate, rate, false);
    Ok(Outcome(l.(state := l.state.(totalStakedAmount := total, lastUnbondedTime := env.time),
                  pending := pending,
                  history := l.history[batch.id := record],
                  currentBatch := CurrentBatch(batch.id + 1, 0)),
               UndelegateMessages(q.validators, parts)))
  }

  /** `check_for_unstake_batch_epoch_completion`: the slashing check still reads the stored batch. */
  function BatchEpochChecked(l: Ledger, batch: CurrentBatch, env: Env, q: Queries): Result<Outcome> {
    var l1 :- SlashingChecked(l, env, q);
    var passed :- Minus(env.time, l1.state.lastUnbondedTime, Panic);
    if passed > l1.params.epochLength then
      BatchProcessed(l1, batch, env, q)
    else
      Ok(Outcome(l1.(currentBatch := batch), []))
  }

  function Unstaked(l: Ledger, env: Env, q: Queries, amount: nat, sender: Addr, flow: UnstakeType): Result<Outcome> {
    var batch := l.currentBatch.(requestedLstTokenAmount := l.currentBatch.requestedLstTokenAmount + amount);
    var recorded := l.(waitList := Recorded(l.waitList, sender, batch.id, amount));
    var outcome :- BatchEpochChecked(recorded, batch, env, q);
    var _ :- OkOr(l.config.lstToken, LstTokenNotSet);
    match flow
    case BurnFlow => Ok(Outcome(outcome.ledger, outcome.messages + [Burn(amount)]))
    case BurnFromFlow =>
      if q.tokenBalance < amount then Err(InsufficientFunds)
      else if q.allowance < amount then Err(InsufficientAllowance)
      else Ok(Outcome(outcome.ledger, outcome.messages + [BurnFrom(sender, amount)]))
  }

  function UndelegationsProcessed(l: Ledger, env: Env, q: Queries): Result<Outcome> {
    if l.currentBatch.requestedLstTokenAmount == 0 then Ok(Outcome(l, []))
    else BatchEpochChecked(l, l.currentBatch, env, q)
  }

  // ---------------------------------------------------------------- releasing and withdrawing

  /** The hub's balance that is not waiting to be delegated. */
  function FreeBalance(l: Ledger, env: Env, q: Queries): Result<nat> {
    var (pendingStaked, _) :- GetPending(l.pending, env.height);
    Minus(q.balance, pendingStaked, Overflow)
  }

  /** `process_withdraw_rate`: the ledger with matured batches released, and the balance left over. */
  function WithdrawRateProcessed(l: Ledger, cutoff: nat, freeBalance: nat): Result<(Ledger, nat)> {
    var unstaked :- Minus(freeBalance, l.state.unclaimedUnstakedBalance, Overflow);
    var (last, left) := ReleasePass(l.history, l.state.lastProcessedBatch + 1, cutoff, unstaked);
    Ok((l.(history := MarkReleased(l.history, l.state.lastProcessedBatch, last),
           state := l.state.(lastProcessedBatch := last)), left))
  }

  function WithdrawRequestsProcessed(l: Ledger, env: Env, q: Queries): Result<Outcome> {
    var cutoff :- Minus(env.time, l.params.unstakingPeriod, Panic);
    var free :- FreeBalance(l, env, q);
    var (l1, left) :- WithdrawRateProcessed(l, cutoff, free);
    var unclaimed :- Minus(free, left, Overflow);
    Ok(Outcome(l1.(state := l1.state.(unclaimedUnstakedBalance := unclaimed)), []))
  }

  /** The batches a withdrawal asks for: the listed ones, or all the user waits for. */
  function AskedBatches(l: Ledger, user: Addr, batchIds: Option<seq<nat>>): seq<nat> {
    if batchIds.Some? then batchIds.value else Ascending(UserBatches(l.waitList, user))
  }

  function Withdrawn(l: Ledger, env: Env, q: Queries, user: Addr, batchIds: Option<seq<nat>>): Result<Outcome> {
    var cutoff :- Minus(env.time, l.params.unstakingPeriod, Panic);
    var free :- FreeBalance(l, env, q);
    var (l1, left) :- WithdrawRateProcessed(l, cutoff, free);
    var (amount, batches) := Finished(l1.history, ListedEntries(l1.waitList, user, AskedBatches(l1, user, batchIds)));
    if amount == 0 then Err(NoWithdrawableAssets)
    else
      var afterPayout :- Minus(free, amount, Overflow);
      var unclaimed :- Minus(afterPayout, left, Overflow);
      Ok(Outcome(l1.(waitList := Without(l1.waitList, user, batches),
                     state := l1.state.(unclaimedUnstakedBalance := unclaimed)),
                 [Send(user, amount)]))
  }

  // ---------------------------------------------------------------- dispatch

  function Execute(l: Ledger, env: Env, q: Queries, info: Info, msg: ExecuteMsg): Result<Outcome> {
    if msg.UpdateParams? then
      if info.sender != l.config.owner then Err(Unauthorized)
      else
        var params :- UpdatedParams(l.params, msg.pause, msg.epochLength, msg.unstakingPeriod);
        Ok(Outcome(l.(params := params), []))
    else if l.params.paused then Err(HubPaused)
    else
      match msg
      case Stake => Staked(l, env, q, info, LSTMint)
      case StakeRewards => Staked(l, env, q, info, StakeType.StakeRewards)
      case Unstake(amount) => Unstaked(l, env, q, amount, info.sender, BurnFromFlow)
      case ReceiveUnstake(sender, amount) =>
        var token :- OkOr(l.config.lstToken, LstTokenNotSet);
        if info.sender == token then Unstaked(l, env, q, amount, sender, BurnFlow) else Err(Unauthorized)
      case WithdrawUnstaked => Withdrawn(l, env, q, info.sender, None)
      case WithdrawUnstakedForBatches(batchIds) => Withdrawn(l, env, q, info.sender, Some(batchIds))
      case CheckSlashing => var l1 :- SlashingChecked(l, env, q); Ok(Outcome(l1, []))
      case UpdateConfig(owner, token, registry, dispatcher) =>
        if info.sender != l.config.owner then Err(Unauthorized)
        else
          var config :- ConfigUpdated(l.config, owner, token, registry, dispatcher);
          Ok(Outcome(l.(config := config), if dispatcher.Some? then [SetWithdrawAddress(dispatcher.value)] else []))
      case RedelegateProxy(source, moves) =>
        var registry :- OkOr(l.config.validatorsRegistry, ValidatorRegistryNotSet);
        if info.sender != registry then Err(Unauthorized)
        else Ok(Outcome(l, RedelegateMessages(source, moves)))
      case UpdateGlobalIndex =>
        var _ :- OkOr(l.config.rewardDispatcher, RewardDispatcherNotSet);
        Ok(Outcome(l.(state := l.state.(lastIndexModification := env.time)), RewardMessages(|q.delegations|)))
      case ProcessUndelegations => UndelegationsProcessed(l, env, q)
      case ProcessWithdrawRequests => WithdrawRequestsProcessed(l, env, q)
  }
}
