/** When transactions of a calm run go through: exactly if what the user and the validators bring is in
    order. The hub's own bookkeeping never stands in the way. */
module Liveness {
  import opened Wrappers
  import opened Sums
  import opened FixedPoint
  import opened Delegation
  import opened PendingEpoch
  import opened HubTypes
  import opened Claims
  import opened Handlers
  import opened Slashing
  import opened World
  import opened Batches
  import opened Runs
  import opened Reachable
  import opened SlashFreeRuns
  import opened CalmRuns

  // ---------------------------------------------------------------- staking

  /** The registry lists a validator, and the payment keeps the total in 128 bits. */
  ghost predicate CanDelegate(q: Queries, payment: nat) {
    q.validators != [] && Sum(Totals(q.validators)) + payment <= U128_MAX
  }

  /** The contracts around the hub are named. */
  predicate Configured(config: Config) {
    config.lstToken.Some? && config.validatorsRegistry.Some? && config.rewardDispatcher.Some?
  }

  /** One coin is sent, a positive amount in the denomination. */
  ghost predicate PaysOneCoin(funds: seq<Coin>, denom: string) {
    |funds| == 1 && funds[0].denom == denom && funds[0].amount > 0
  }

  lemma StakedOkIff(l: Ledger, env: Env, q: Queries, info: Info, kind: StakeType)
    requires CheckedState(l, env, q).Ok? && CheckedState(l, env, q).value.lstExchangeRate > 0
    requires forall payment :: UpdatePending(l.pending, env.height, payment, 0).Ok?
    ensures Staked(l, env, q, info, kind).Ok? <==>
              && Configured(l.config)
              && (kind == StakeType.StakeRewards ==> l.config.rewardDispatcher == Some(info.sender))
              && PaysOneCoin(info.funds, l.params.stakingCoinDenom)
              && CanDelegate(q, SumOfDenom(info.funds, l.params.stakingCoinDenom))
    ensures var r := Staked(l, env, q, info, kind);
            if l.config.rewardDispatcher.None? then r == Err(RewardDispatcherNotSet)
            else if kind == StakeType.StakeRewards && info.sender != l.config.rewardDispatcher.value
              then r == Err(Unauthorized)
            else if |info.funds| > 1 then r == Err(OnlyOneCoinAllowed)
            else if !PaysOneCoin(info.funds, l.params.stakingCoinDenom) then r == Err(InvalidAmount)
            else if l.config.lstToken.None? then r == Err(Panic)
            else if l.config.validatorsRegistry.None? then r == Err(ValidatorRegistryNotSet)
            else if q.validators == [] then r == Err(EmptyValidatorSet)
            else r.Ok? || r == Err(Panic)
  {
    hide CheckedState, UpdatePending, Delegations, DelegateMessages, FromRatio, Sum, Totals;
    PaymentOutcome(info.funds, l.params.stakingCoinDenom);
    hide Payment, PaysOneCoin;
    DelegationFails(SumOfDenom(info.funds, l.params.stakingCoinDenom), q.validators);
    if Payment(info.funds, l.params.stakingCoinDenom).Ok? {
      PaymentIsFunds(info.funds, l.params.stakingCoinDenom);
      DelegationsTotalAndExact(SumOfDenom(info.funds, l.params.stakingCoinDenom), Totals(q.validators));
    }
  }

  lemma PaymentOutcome(funds: seq<Coin>, denom: string)
    ensures Payment(funds, denom).Ok? <==> PaysOneCoin(funds, denom)
    ensures |funds| > 1 ==> Payment(funds, denom) == Err(OnlyOneCoinAllowed)
    ensures |funds| <= 1 && !PaysOneCoin(funds, denom) ==> Payment(funds, denom) == Err(InvalidAmount)
  {
  }

  lemma DelegationFails(amount: nat, validators: seq<ValidatorResponse>)
    ensures Delegations(amount, Totals(validators)).Err? ==>
              Delegations(amount, Totals(validators)).error == if validators == [] then EmptyValidatorSet else Panic
  {
  }

  lemma UpdatesSucceed(p: PendingDelegation, c: Chain)
    requires Tracks(p, c)
    ensures forall s, u :: UpdatePending(p, c.height, s, u).Ok?
  {
    forall s, u ensures UpdatePending(p, c.height, s, u).Ok? {
      UpdateAddsToReading(p, c.epochOrigin, c.height, s, u);
    }
  }

  lemma SoundParts(w: World, tokens: nat)
    requires SoundFor(w, tokens)
    ensures Tracks(w.hub.pending, w.chain) && w.hub.state.lastUnbondedTime <= EnvOf(w.chain).time
  {
    hide Structured, Solvent, RateCovered, Unreleased, Tracks;
  }

  /** A stake in a calm world succeeds exactly if the hub is open, the payment is one positive coin of
      the staking denomination (and rewards come from the dispatcher), and it can be delegated. */
  lemma StakeSucceedsIff(w: World, q: Queries, info: Info, msg: ExecuteMsg)
    requires Calm(w) && Possible(w, Tx(q, info, msg))
    requires msg.Stake? || msg.StakeRewards?
    ensures Transact(w, q, info, msg).Ok? <==>
              && !w.hub.params.paused
              && Configured(w.hub.config)
              && (msg.StakeRewards? ==> w.hub.config.rewardDispatcher == Some(info.sender))
              && PaysOneCoin(info.funds, w.hub.params.stakingCoinDenom)
              && CanDelegate(q, SumOfDenom(info.funds, w.hub.params.stakingCoinDenom))
  {
    hide Staked, SoundFor, SlashFreeFor, OnPace, UpdatePending, Delegations, DelegateMessages, Totals, QueuedStake,
         QueuedUnstake, UnstakedFrom, MintAmount, CheckedState, Backed, Payment, CanDelegate, Booked, BurnTokens,
           Tracks, Sees;
    var env := EnvOf(w.chain);
    SeesArrived(w, q, info);
    var st := CheckSucceeds(w, w.hub.currentBatch, q, Tokens(w));
    SoundParts(w, Tokens(w));
    UpdatesSucceed(w.hub.pending, w.chain);
    StakedOkIff(w.hub, env, q, info, KindOf(msg));
    if Staked(w.hub, env, q, info, KindOf(msg)).Ok? && !w.hub.params.paused {
      assert Execute(w.hub, env, q, info, msg) == Staked(w.hub, env, q, info, KindOf(msg));
      var o, st1, payment, minted, queued := StakeEffect(w.hub, env, q, info, KindOf(msg));
      var mid := World(o.ledger, Funded(w, info), Booked(w, q, info, msg, o.ledger));
      if msg.Stake? {
        DeliverThen(mid, q, queued, Mint(info.sender, minted));
      } else {
        assert queued + [] == queued;
        DeliverQueued(mid, q, queued);
      }
    }
  }

  // ---------------------------------------------------------------- unstaking

  ghost predicate Due(w: World) {
    EnvOf(w.chain).time > w.hub.state.lastUnbondedTime + w.hub.params.epochLength
  }

  /** The batch is worth something at the rate, and the listed validators hold that much. */
  ghost predicate CanUndelegate(q: Queries, requested: nat, rate: nat) {
    q.validators != [] && 0 < DecimalMultiplication(requested, rate) <= Sum(Totals(q.validators)) <= U128_MAX
  }

  lemma BatchOkIff(l: Ledger, batch: CurrentBatch, env: Env, q: Queries)
    requires DecimalMultiplication(batch.requestedLstTokenAmount, l.state.lstExchangeRate) <= l.state.totalStakedAmount
    requires forall u :: UpdatePending(l.pending, env.height, 0, u).Ok?
    ensures BatchProcessed(l, batch, env, q).Ok? <==>
              l.config.validatorsRegistry.Some?
              && CanUndelegate(q, batch.requestedLstTokenAmount, l.state.lstExchangeRate)
  {
    hide UpdatePending, DecimalMultiplication, Undelegations, UndelegateMessages, Sum, Totals;
    UndelegationsTotalAndExact(DecimalMultiplication(batch.requestedLstTokenAmount, l.state.lstExchangeRate),
                               Totals(q.validators));
  }

  /** The epoch check fails in a calm world only over a batch that is due and cannot be undelegated. */
  lemma EpochCheckSucceedsIff(w: World, stored: CurrentBatch, q: Queries, tokens: nat) returns (rate: nat)
    requires SoundFor(w, tokens) && SlashFreeFor(w, tokens) && OnPace(w)
    requires Sees(w.chain, w.hub.params.stakingCoinDenom, q, q.balance)
    requires tokens == q.supply + stored.requestedLstTokenAmount >= w.hub.currentBatch.requestedLstTokenAmount
    ensures CheckedState(w.hub.(currentBatch := stored), EnvOf(w.chain), q)
         == Ok(w.hub.state.(lstExchangeRate := rate))
    ensures BatchEpochChecked(w.hub.(currentBatch := stored), w.hub.currentBatch, EnvOf(w.chain), q).Ok?
       <==> (Due(w) ==>
               && w.hub.config.validatorsRegistry.Some?
               && CanUndelegate(q, w.hub.currentBatch.requestedLstTokenAmount, rate))
  {
    hide SoundFor, SlashFreeFor, OnPace, CheckedState, BatchProcessed, UpdatePending, Backed, CanUndelegate, Tracks,
         Sees, DecimalMultiplication;
    var l, batch, env := w.hub.(currentBatch := stored), w.hub.currentBatch, EnvOf(w.chain);
    var st := CheckSucceeds(w, stored, q, tokens);
    rate := st.lstExchangeRate;
    SoundParts(w, tokens);
    UpdatesSucceed(w.hub.pending, w.chain);
    BatchKeepsRate(st, tokens, batch.requestedLstTokenAmount);
    BatchOkIff(l.(state := st), batch, env, q);
  }

  /** A burn of tokens there are goes through, with its slashing check. */
  lemma BurnSucceeds(w: World, q: Queries, amount: nat, tokens: nat)
    requires SoundFor(w, tokens) && SlashFreeFor(w, tokens) && OnPace(w) && !w.hub.params.paused
    requires Sees(w.chain, w.hub.params.stakingCoinDenom, q, q.balance)
    requires amount <= w.chain.supply && w.chain.supply - amount + w.hub.currentBatch.requestedLstTokenAmount <= tokens
    ensures BurnTokens(w, q, amount).Ok?
  {
    hide ActualState, Structured, Solvent, Tracks, RateCovered, Unreleased, Covered, Paced, Backed, Sees;
    var l := w.hub;
    SeesDelegations(w.chain, l.params.stakingCoinDenom, q, q.balance);
    CheckIsOk(l.state, l.params.stakingCoinDenom, l.currentBatch.requestedLstTokenAmount, l.pending, w.chain,
              q.(supply := w.chain.supply - amount));
  }

  /** What an unstake asks of its sender. */
  ghost predicate MayUnstake(l: Ledger, q: Queries, info: Info, msg: ExecuteMsg)
    requires IsUnstake(msg)
  {
    && !l.params.paused
    && (msg.Unstake? ==> msg.amount <= q.tokenBalance && msg.amount <= q.allowance)
    && l.config.lstToken.Some?
    && (msg.ReceiveUnstake? ==> l.config.lstToken == Some(info.sender))
  }

  lemma UnstakeExecutesIff(l: Ledger, env: Env, q: Queries, info: Info, msg: ExecuteMsg)
    requires IsUnstake(msg)
    ensures var checked := BatchEpochChecked(RecordedLedger(l, UnstakeUser(info, msg), UnstakeAmount(msg)),
                                             RecordedBatch(l, UnstakeAmount(msg)), env, q);
            && (Execute(l, env, q, info, msg).Ok? <==> MayUnstake(l, q, info, msg) && checked.Ok?)
            && (Execute(l, env, q, info, msg).Err? ==>
                  Execute(l, env, q, info, msg).error
                  == if l.params.paused then HubPaused
                     else if msg.ReceiveUnstake? && l.config.lstToken.None? then LstTokenNotSet
                     else if msg.ReceiveUnstake? && l.config.lstToken != Some(info.sender) then Unauthorized
                     else if checked.Err? then checked.error
                     else if l.config.lstToken.None? then LstTokenNotSet
                     else if msg.amount > q.tokenBalance then InsufficientFunds
                     else InsufficientAllowance)
  {
    hide BatchEpochChecked, Recorded;
  }

  /** An unstake in a calm world succeeds exactly if the hub is open to its sender, the tokens exist to be
      burnt, and a batch that is due with the request in it can be undelegated at the checked rate. */
  lemma UnstakeSucceedsIff(w: World, q: Queries, info: Info, msg: ExecuteMsg) returns (rate: nat)
    requires Calm(w) && Possible(w, Tx(q, info, msg))
    requires IsUnstake(msg)
    ensures CheckedState(w.hub, EnvOf(w.chain), q) == Ok(w.hub.state.(lstExchangeRate := rate))
    ensures Transact(w, q, info, msg).Ok? <==>
              && UnstakeAmount(msg) <= w.chain.supply
              && MayUnstake(w.hub, q, info, msg)
              && (Due(w) ==>
                    && w.hub.config.validatorsRegistry.Some?
                    && CanUndelegate(q, w.hub.currentBatch.requestedLstTokenAmount + UnstakeAmount(msg), rate))
  {
    hide SoundFor, SlashFreeFor, OnPace, BatchEpochChecked, BurnTokens, Recorded, CheckedState, MayUnstake,
         CanUndelegate, Booked, Sees;
    var l, env := w.hub, EnvOf(w.chain);
    SeesArrived(w, q, info);
    if UnstakeAmount(msg) > w.chain.supply {
      var st := CheckSucceeds(w, l.currentBatch, q, Tokens(w));
      rate := st.lstExchangeRate;
      if Transact(w, q, info, msg).Ok? {
        UnstakeNeedsSupply(w, q, info, msg);
      }
    } else {
      var recorded := RecordedWorld(w, info, msg);
      RecordedIsSlashFree(w, q, info, msg);
      RecordedOnPace(w, info, msg);
      rate := EpochCheckSucceedsIff(recorded, l.currentBatch, q, Tokens(w));
      CheckReads(recorded.hub.(currentBatch := l.currentBatch), l, env, q);
      UnstakeExecutesIff(l, env, q, info, msg);
      if Execute(l, env, q, info, msg).Ok? {
        UnstakeDelivers(w, q, info, msg);
      }
    }
  }

  lemma UnstakeNeedsSupply(w: World, q: Queries, info: Info, msg: ExecuteMsg)
    requires IsUnstake(msg) && Transact(w, q, info, msg).Ok?
    ensures UnstakeAmount(msg) <= w.chain.supply
  {
    hide Transact, BatchEpochChecked, BurnTokens, Recorded, Booked;
    var o, mid := UnstakeChecked(w, q, info, msg);
    BurnNeedsSupply(mid, q, UnstakeAmount(msg));
  }

  lemma CheckReads(l: Ledger, m: Ledger, env: Env, q: Queries)
    requires l == m.(waitList := l.waitList)
    ensures CheckedState(l, env, q) == CheckedState(m, env, q)
  {
    hide ActualState;
  }

  lemma UnstakeDelivers(w: World, q: Queries, info: Info, msg: ExecuteMsg)
    requires Calm(w) && Possible(w, Tx(q, info, msg))
    requires IsUnstake(msg) && UnstakeAmount(msg) <= w.chain.supply
    requires Execute(w.hub, EnvOf(w.chain), q, info, msg).Ok?
    ensures Transact(w, q, info, msg).Ok?
  {
    hide SoundFor, SlashFreeFor, OnPace, BatchEpochChecked, BurnTokens, Recorded, LoweredByCheck, Sees;
    var l, amount := w.hub, UnstakeAmount(msg);
    var recorded := RecordedWorld(w, info, msg);
    RecordedIsSlashFree(w, q, info, msg);
    RecordedOnPace(w, info, msg);
    hide Calm, Possible, Booked;
    var o, burn := UnstakeIsExecuted(l, EnvOf(w.chain), q, info, msg);
    NotPaused(l, EnvOf(w.chain), q, info, msg);
    hide Execute;
    UndelegatesOnly(RecordedLedger(l, UnstakeUser(info, msg), amount), RecordedBatch(l, amount), EnvOf(w.chain), q);
    var start := World(o.ledger, Funded(w, info), Booked(w, q, info, msg, o.ledger));
    DeliverThen(start, q, o.messages, burn);
    var o1, after := EpochKeepsSound(recorded, l.currentBatch, q, Tokens(w));
    var o2, freeAfter := EpochKeepsSlashFree(recorded, l.currentBatch, q, Tokens(w));
    var o3, paced := EpochKeepsPace(recorded, l.currentBatch, q, Tokens(w));
    UnstakeBooks(w, q, info, msg, o.ledger);
    LoweredReads(recorded.hub.(currentBatch := l.currentBatch), l, EnvOf(w.chain), q);
    var mid := start.(chain := start.chain.(queue := w.chain.queue + o.messages));
    assert mid == freeAfter;
    var tokens := Tokens(w) - recorded.hub.currentBatch.requestedLstTokenAmount
                  + o.ledger.currentBatch.requestedLstTokenAmount;
    SoundIgnoresBatchHeight(after, mid, tokens);
    SeesQueued(recorded.chain, mid.chain, l.params.stakingCoinDenom, q);
    BurnSucceeds(mid, q, amount, tokens);
  }

  lemma NotPaused(l: Ledger, env: Env, q: Queries, info: Info, msg: ExecuteMsg)
    requires IsUnstake(msg) && Execute(l, env, q, info, msg).Ok?
    ensures !l.params.paused
  {
    hide Unstaked;
  }

  // ---------------------------------------------------------------- the first stake

  /** The owner names the contracts around the hub. */
  ghost function Naming(w: World, token: Addr, registry: Addr, dispatcher: Addr): Step {
    Tx(Queries([], w.chain.supply, w.chain.bank, [], 0, 0), Info(w.hub.config.owner, []),
       UpdateConfig(None, Some(token), Some(registry), Some(dispatcher)))
  }

  ghost function Named(w: World, token: Addr, registry: Addr, dispatcher: Addr): World {
    w.(hub := w.hub.(config := Config(w.hub.config.owner, Some(token), Some(registry), Some(dispatcher))))
  }

  lemma NamingTakesPlace(w: World, token: Addr, registry: Addr, dispatcher: Addr)
    requires w.hub.config.lstToken.None? && !w.hub.params.paused && SumValues(w.chain.delegated) == 0
    requires w.chain.epochLength > 0 && w.chain.epochOrigin <= w.chain.height
    ensures Possible(w, Naming(w, token, registry, dispatcher))
    ensures Next(w, Naming(w, token, registry, dispatcher)) == Named(w, token, registry, dispatcher)
  {
    var step := Naming(w, token, registry, dispatcher);
    assert SumOfDenom([], w.hub.params.stakingCoinDenom) == 0;
    var o := Outcome(Named(w, token, registry, dispatcher).hub, [SetWithdrawAddress(dispatcher)]);
    assert Execute(w.hub, EnvOf(w.chain), step.q, step.info, step.msg) == Ok(o);
    hide Execute;
    UnchangedBooks(w, step.q, step.info, step.msg, o.ledger);
    DeliverPlain(Named(w, token, registry, dispatcher), step.q, o.messages);
  }

  /** On a new hub, once the contracts around it are named, the first stake that can be delegated succeeds,
      and mints one token for each coin. */
  lemma FirstStake(start: World, token: Addr, registry: Addr, dispatcher: Addr, q: Queries, info: Info)
    returns (after: World)
    requires Start(start) && Possible(Named(start, token, registry, dispatcher), Tx(q, info, Stake))
    requires PaysOneCoin(info.funds, start.hub.params.stakingCoinDenom)
    requires CanDelegate(q, SumOfDenom(info.funds, start.hub.params.stakingCoinDenom))
    ensures Run(start, [Naming(start, token, registry, dispatcher), Tx(q, info, Stake)], after) && Calm(after)
    ensures after.hub.state.totalStakedAmount == Tokens(after)
         == SumOfDenom(info.funds, start.hub.params.stakingCoinDenom) > 0
    ensures after.hub.state.lstExchangeRate == ONE
    ensures after.chain.queue != []
  {
    hide Start, Calm, Possible, Transact, Payment, CanDelegate, CheckedState, UpdatePending, FromRatio, Booked;
    StartLedger(start);
    StartIsOpen(start);
    var naming := Naming(start, token, registry, dispatcher);
    var w := Named(start, token, registry, dispatcher);
    NamingTakesPlace(start, token, registry, dispatcher);
    StartIsCalm(start);
    SettingsAreCalm(start, naming);
    StepKeepsCalm(start, naming);
    NothingToCheck(w, q, info);
    StakeSucceedsIff(w, q, info, Stake);
    var o, st, payment, minted, queued := StakeTransaction(w, q, info, Stake);
    after := Transact(w, q, info, Stake).value;
    OneForOne(payment);
    WholeRatio(payment);
    assert minted == payment;
    assert o.ledger.state.totalStakedAmount == payment;
    hide MintAmount;
    SteppedOnce(start, naming, w);
    SteppedTwice(start, naming, w, Tx(q, info, Stake), after);
    StepKeepsCalm(w, Tx(q, info, Stake));
  }

  lemma SettingsAreCalm(w: World, step: Step)
    requires step.Tx? && step.msg.UpdateConfig?
    ensures CalmStep(w.chain.epochLength, step)
  {
  }

  lemma OneForOne(payment: nat)
    ensures MintAmount(LSTMint, payment, ONE) == Ok(payment)
    ensures DecimalMultiplication(payment, ONE) == payment
  {
    Floor(payment * ONE, ONE, payment);
  }

  lemma WholeRatio(n: nat)
    requires n > 0
    ensures FromRatio(n, n) == ONE
  {
    Floor(n * ONE, n, ONE);
  }

  lemma StartIsOpen(start: World)
    requires Start(start)
    ensures !start.hub.params.paused && start.hub.config == Config(start.hub.config.owner, None, None, None)
    ensures SumValues(start.chain.delegated) == 0 && start.chain.supply == 0
  {
  }

  lemma NothingToCheck(w: World, q: Queries, info: Info)
    requires SumValues(w.chain.delegated) == 0 && Possible(w, Tx(q, info, Stake))
    ensures CheckedState(w.hub, EnvOf(w.chain), q) == Ok(w.hub.state) && q.supply == w.chain.supply
  {
  }

  lemma SteppedOnce(start: World, step: Step, after: World)
    requires start.chain.epochLength > 0 && start.chain.epochOrigin <= start.chain.height
    requires Possible(start, step) && after == Next(start, step)
    ensures Run(start, [step], after)
  {
    hide Possible, Next;
    assert [step][..0] == [];
    assert Run(start, [step][..0], start);
  }

  lemma SteppedTwice(start: World, first: Step, mid: World, second: Step, after: World)
    requires Run(start, [first], mid)
    requires mid.chain.epochLength > 0 && mid.chain.epochOrigin <= mid.chain.height
    requires Possible(mid, second) && after == Next(mid, second)
    ensures Run(start, [first, second], after)
  {
    hide Possible, Next;
    assert [first, second][..1] == [first];
  }

  /** There are such hubs and such stakes, so runs that stake exist. */
  lemma SomeHubStakes() returns (start: World, after: World, steps: seq<Step>)
    ensures Start(start) && Run(start, steps, after) && Calm(after) && Tokens(after) == 100
  {
    var params := Parameters(7200, "ubbn", 183600, false);
    var chain := Chain(0, 360, 5, 0, 0, 0, map[], [], 0);
    var hub := Instantiate("owner", params, 360, 0, EnvOf(chain)).value;
    start := World(hub, chain, Books(0, 0, 0, 0, 0, None));
    var q := Queries([], 0, 100, [ValidatorResponse(0, "validator")], 0, 0);
    var info := Info("user", [Coin("ubbn", 100)]);
    assert info.funds[..0] == [];
    assert SumOfDenom(info.funds, "ubbn") == 100;
    assert Totals(q.validators) == [0];
    assert Sum([0]) == 0;
    hide Run, Calm;
    after := FirstStake(start, "token", "registry", "rewards", q, info);
    steps := [Naming(start, "token", "registry", "rewards"), Tx(q, info, Stake)];
  }
}
