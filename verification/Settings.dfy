/** Who may change what: the parameters stay in order over any run, only the owner changes the parameters and the
    configuration, the token stays once named, and a paused hub stands still
    (contracts/lst_staking_hub/src/config.rs; contracts/lst_staking_hub/src/contract.rs, execute). */
module SettingRuns {
  import opened Wrappers
  import opened FixedPoint
  import opened Delegation
  import opened PendingEpoch
  import opened HubTypes
  import opened Claims
  import opened Release
  import opened Handlers
  import opened World
  import opened Runs
  import opened Reachable

  // ---------------------------------------------------------------- the parameters

  /** The periods are within their maxima, and a batch is undelegated before it could be over. */
  ghost predicate InOrder(p: Parameters) {
    && p.epochLength <= MAX_EPOCH_LENGTH
    && p.unstakingPeriod <= MAX_UNSTAKING_PERIOD
    && p.epochLength < p.unstakingPeriod
  }

  /** A hub can be instantiated exactly with parameters in order whose epoch length is at least one staking epoch at
      the average block time. */
  lemma InstantiatesIff(owner: Addr, params: Parameters, blocks: nat, start: nat, env: Env)
    ensures Instantiate(owner, params, blocks, start, env).Ok?
       <==> InOrder(params) && params.epochLength >= blocks * AVERAGE_BLOCK_TIME
    ensures Instantiate(owner, params, blocks, start, env).Ok? ==>
              var l := Instantiate(owner, params, blocks, start, env).value;
              l.params == params.(paused := false) && l.config == Config(owner, None, None, None)
  {
  }

  /** The parameters as asked for: what is named is set, the rest stays. */
  ghost function Wanted(params: Parameters, pause: Option<bool>, epochLength: Option<nat>, unstakingPeriod: Option<nat>)
    : Parameters
  {
    params.(paused := if pause.Some? then pause.value else params.paused,
            epochLength := if epochLength.Some? then epochLength.value else params.epochLength,
            unstakingPeriod := if unstakingPeriod.Some? then unstakingPeriod.value else params.unstakingPeriod)
  }

  /** A change of parameters in order is accepted exactly if it leaves them in order, and then sets what it names. */
  lemma AcceptedIff(params: Parameters, pause: Option<bool>, epochLength: Option<nat>, unstakingPeriod: Option<nat>)
    requires InOrder(params)
    ensures var r := UpdatedParams(params, pause, epochLength, unstakingPeriod);
            var wanted := Wanted(params, pause, epochLength, unstakingPeriod);
            && (r.Ok? <==> InOrder(wanted))
            && (r.Ok? ==> r.value == wanted)
  {
  }

  /** A change of the configuration is accepted unless it names another token than the one named, and then sets what it
      names and nothing else. */
  lemma ConfigAcceptedIff(config: Config, owner: Option<Addr>, token: Option<Addr>, registry: Option<Addr>,
                          dispatcher: Option<Addr>)
    ensures var r := ConfigUpdated(config, owner, token, registry, dispatcher);
            && (r.Err? <==> config.lstToken.Some? && token.Some? && token.value != config.lstToken.value)
            && (r.Err? ==> r == Err(LstTokenAlreadySet))
            && (r.Ok? ==>
                  && (owner.Some? ==> r.value.owner == owner.value)
                  && (owner.None? ==> r.value.owner == config.owner)
                  && r.value.lstToken == (if token.Some? then token else config.lstToken)
                  && r.value.validatorsRegistry == (if registry.Some? then registry else config.validatorsRegistry)
                  && r.value.rewardDispatcher == (if dispatcher.Some? then dispatcher else config.rewardDispatcher))
  {
  }

  /** Each reward is withdrawn once, and all are dispatched afterwards. */
  lemma RewardsOnceEach(delegations: nat, place: nat)
    ensures var messages := RewardMessages(delegations);
            && |messages| == delegations + 1 && messages[delegations] == DispatchRewards
            && (place < delegations <==> WithdrawReward(place) in messages[..delegations])
            && (forall i, j | 0 <= i < j < delegations :: messages[i] != messages[j])
  {
    var messages := RewardMessages(delegations);
    if place < delegations {
      assert messages[..delegations][place] == WithdrawReward(place);
    }
  }

  // ---------------------------------------------------------------- one message

  lemma EpochCheckKeepsSettings(l: Ledger, batch: CurrentBatch, env: Env, q: Queries)
    requires BatchEpochChecked(l, batch, env, q).Ok?
    ensures var after := BatchEpochChecked(l, batch, env, q).value.ledger;
            after.params == l.params && after.config == l.config
  {
    hide CheckedState, UpdatePending, Undelegations, UndelegateMessages, DecimalMultiplication;
  }

  lemma UnstakeKeepsSettings(l: Ledger, env: Env, q: Queries, info: Info, msg: ExecuteMsg)
    requires IsUnstake(msg) && Execute(l, env, q, info, msg).Ok?
    ensures var after := Execute(l, env, q, info, msg).value.ledger;
            after.params == l.params && after.config == l.config
  {
    hide BatchEpochChecked, Recorded, Execute;
    var o, burn := UnstakeIsExecuted(l, env, q, info, msg);
    EpochCheckKeepsSettings(RecordedLedger(l, UnstakeUser(info, msg), UnstakeAmount(msg)),
                            RecordedBatch(l, UnstakeAmount(msg)), env, q);
  }

  lemma OthersKeepSettings(l: Ledger, env: Env, q: Queries, info: Info, msg: ExecuteMsg)
    requires !IsUnstake(msg) && !msg.UpdateParams? && !msg.UpdateConfig?
    requires Execute(l, env, q, info, msg).Ok?
    ensures var after := Execute(l, env, q, info, msg).value.ledger;
            after.params == l.params && after.config == l.config
  {
    hide CheckedState, UpdatePending, BatchEpochChecked, FreeBalance, ReleasePass, Delegations, MintAmount, Payment,
         MarkReleased, Finished, ListedEntries, Without, AskedBatches;
    if msg.ProcessUndelegations? && BatchEpochChecked(l, l.currentBatch, env, q).Ok? {
      EpochCheckKeepsSettings(l, l.currentBatch, env, q);
    }
  }

  /** What a message that succeeds may change of the settings, and what of a paused hub. */
  lemma MessageKeepsSettings(l: Ledger, env: Env, q: Queries, info: Info, msg: ExecuteMsg)
    requires Execute(l, env, q, info, msg).Ok?
    ensures var after := Execute(l, env, q, info, msg).value.ledger;
            && (after.params != l.params ==> msg.UpdateParams? && info.sender == l.config.owner)
            && (after.config != l.config ==> msg.UpdateConfig? && info.sender == l.config.owner)
            && (InOrder(l.params) ==> InOrder(after.params))
            && (l.config.lstToken.Some? ==> after.config.lstToken == l.config.lstToken)
            && (l.params.paused ==> msg.UpdateParams? && info.sender == l.config.owner)
  {
    hide Staked, Unstaked, Withdrawn, UndelegationsProcessed, WithdrawRequestsProcessed, CheckedState;
    if IsUnstake(msg) {
      UnstakeKeepsSettings(l, env, q, info, msg);
    } else if !msg.UpdateParams? && !msg.UpdateConfig? {
      OthersKeepSettings(l, env, q, info, msg);
    }
  }

  /** On a hub that is open only the contract named for it may restake rewards, pass an unstake on, or redelegate. */
  lemma OnlyTheNamedMay(l: Ledger, env: Env, q: Queries, info: Info, msg: ExecuteMsg)
    requires Execute(l, env, q, info, msg).Ok?
    ensures msg.StakeRewards? ==> l.config.rewardDispatcher == Some(info.sender)
    ensures msg.ReceiveUnstake? ==> l.config.lstToken == Some(info.sender)
    ensures msg.RedelegateProxy? ==> l.config.validatorsRegistry == Some(info.sender)
    ensures msg.UpdateParams? || msg.UpdateConfig? ==> l.config.owner == info.sender
  {
    hide CheckedState, UpdatePending, Unstaked, Withdrawn, WithdrawRequestsProcessed, UndelegationsProcessed,
         Delegations, DelegateMessages, MintAmount, Payment;
  }

  // ---------------------------------------------------------------- steps and runs

  /** A transaction of the owner. */
  ghost predicate OwnerActs(w: World, step: Step) { step.Tx? && step.info.sender == w.hub.config.owner }

  lemma StepKeepsSettings(w: World, step: Step)
    requires Possible(w, step) && w.chain.epochLength > 0 && w.chain.epochOrigin <= w.chain.height
    ensures var l, after := w.hub, Next(w, step).hub;
            && (InOrder(l.params) ==> InOrder(after.params))
            && (l.config.lstToken.Some? ==> after.config.lstToken == l.config.lstToken)
            && (!OwnerActs(w, step) ==> after.params == l.params && after.config == l.config)
            && (!OwnerActs(w, step) && l.params.paused ==> after == l)
  {
    hide Transact, Execute, Possible, BurnTokens, NewBlock, InOrder;
    match step
    case Tx(q, info, msg) =>
      if Transact(w, q, info, msg).Ok? {
        var l := TransactFollows(w, q, info, msg);
        MessageKeepsSettings(w.hub, EnvOf(w.chain), q, info, msg);
      }
    case TokenBurn(q, amount) =>
      if BurnTokens(w, q, amount).Ok? {
        BurnFollows(w, q, amount);
      }
    case _ =>
  }

  /** In every state of every run the parameters are in order. */
  lemma {:induction false} ReachableInOrder(start: World, steps: seq<Step>, end: World)
    requires Start(start) && Run(start, steps, end)
    ensures InOrder(end.hub.params)
    decreases |steps|
  {
    hide Next, Possible, InOrder;
    if steps == [] {
      StartInOrder(start);
    } else {
      var n := |steps| - 1;
      var mid :| Run(start, steps[..n], mid)
                 && mid.chain.epochLength > 0 && mid.chain.epochOrigin <= mid.chain.height
                 && Possible(mid, steps[n])
                 && end == Next(mid, steps[n]);
      hide Start;
      ReachableInOrder(start, steps[..n], mid);
      StepKeepsSettings(mid, steps[n]);
    }
  }

  lemma StartInOrder(w: World)
    requires Start(w)
    ensures InOrder(w.hub.params)
  {
    InstantiatesIff(w.hub.config.owner, w.hub.params, w.chain.epochLength, w.chain.epochOrigin, EnvOf(w.chain));
  }

  /** Over any run, from whatever state: the token stays once named; and as long as the owner does nothing, the
      parameters and the configuration stay, and a paused hub stands still in everything it stores. */
  lemma {:induction false} RunKeepsSettings(start: World, steps: seq<Step>, end: World)
    requires Run(start, steps, end)
    ensures start.hub.config.lstToken.Some? ==> end.hub.config.lstToken == start.hub.config.lstToken
    ensures (forall s | s in steps :: !OwnerActs(start, s)) ==>
              && end.hub.params == start.hub.params && end.hub.config == start.hub.config
              && (start.hub.params.paused ==> end.hub == start.hub)
    decreases |steps|
  {
    hide Next, Possible;
    if steps != [] {
      var n := |steps| - 1;
      var mid :| Run(start, steps[..n], mid)
                 && mid.chain.epochLength > 0 && mid.chain.epochOrigin <= mid.chain.height
                 && Possible(mid, steps[n])
                 && end == Next(mid, steps[n]);
      RunKeepsSettings(start, steps[..n], mid);
      assert steps[n] in steps;
      StepKeepsSettings(mid, steps[n]);
    }
  }
}
