/** When the exchange rate falls without slashing: exactly where no token is left, or where the first stake after
    that finds a rate left from before (packages/lst_common/src/hub.rs, update_lst_exchange_rate). */
module RateFalls {
  import opened Wrappers
  import opened Sums
  import opened FixedPoint
  import opened Delegation
  import opened PendingEpoch
  import opened HubTypes
  import opened Claims
  import opened Handlers
  import opened Slashing
  import opened World
  import opened Batches
  import opened Runs
  import opened Reachable
  import opened SlashFreeRuns
  import opened CalmRuns
  import opened Liveness
  import opened Theorems

  // ---------------------------------------------------------------- one refresh, one check

  /** While the stake covers the tokens at a rate of at least 1, refreshing lowers the rate exactly if there is
      no token and the rate was above 1. */
  lemma RefreshLowersIff(st: State, issued: nat, requested: nat)
    requires st.lstExchangeRate >= ONE && Backed(st.lstExchangeRate, st.totalStakedAmount, issued + requested)
    ensures st.UpdateLstExchangeRate(issued, requested).lstExchangeRate < st.lstExchangeRate
       <==> issued + requested == 0 && st.lstExchangeRate > ONE
  {
    RefreshedRate(st, issued, requested, st.lstExchangeRate);
    StakeBehindTokens(st, issued + requested);
  }

  /** A slashing check gets to the rate: the chain holds something, and the total is not just what is queued. */
  ghost predicate ChecksRate(staked: nat, c: Chain) {
    SumValues(c.delegated) > 0 && staked + QueuedUnstake(c.queue) != QueuedStake(c.queue)
  }

  /** A check that succeeds where there is no token sets the rate to 1 if it gets to it, and leaves it otherwise. */
  lemma CheckWithoutTokens(st: State, denom: string, pending: PendingDelegation, c: Chain, q: Queries)
    requires Tracks(pending, c) && WithinReach(st.totalStakedAmount, c) && q.supply == 0
    requires SumOfDenom(q.delegations, denom) == SumValues(c.delegated)
    requires q.delegations == [] <==> SumValues(c.delegated) == 0
    ensures var r := ActualState(st, denom, 0, pending, EnvOf(c), q);
            r.Ok? ==>
              r.value.lstExchangeRate == if ChecksRate(st.totalStakedAmount, c) then ONE else st.lstExchangeRate
  {
    if q.delegations != [] {
      CheckTakesMinimum(st, denom, 0, pending, EnvOf(c), q);
    }
  }

  /** What a check that succeeds does to the rate, with tokens and without. */
  lemma CheckedRate(w: World, stored: CurrentBatch, q: Queries, st: State)
    requires SoundFor(w, q.supply + stored.requestedLstTokenAmount)
    requires SlashFreeFor(w, q.supply + stored.requestedLstTokenAmount)
    requires SumOfDenom(q.delegations, w.hub.params.stakingCoinDenom) == SumValues(w.chain.delegated)
    requires q.delegations == [] <==> SumValues(w.chain.delegated) == 0
    requires CheckedState(w.hub.(currentBatch := stored), EnvOf(w.chain), q) == Ok(st)
    ensures st.totalStakedAmount == w.hub.state.totalStakedAmount && st.lstExchangeRate >= ONE
    ensures st.lastUnbondedTime == w.hub.state.lastUnbondedTime
    ensures if q.supply + stored.requestedLstTokenAmount > 0 then w.hub.state.lstExchangeRate <= st.lstExchangeRate
            else st.lstExchangeRate
                 == if ChecksRate(w.hub.state.totalStakedAmount, w.chain) then ONE else w.hub.state.lstExchangeRate
  {
    hide ActualState, Structured, Solvent, Tracks, RateCovered, Unreleased, Backed, WithinReach;
    CheckLowersNothing(w.hub.state, w.hub.params.stakingCoinDenom, stored.requestedLstTokenAmount, w.hub.pending,
                       w.chain, q);
    if q.supply + stored.requestedLstTokenAmount == 0 {
      CheckWithoutTokens(w.hub.state, w.hub.params.stakingCoinDenom, w.hub.pending, w.chain, q);
    }
  }

  // ---------------------------------------------------------------- which steps lower it

  /** The unstake asks for all tokens there are, and no request is left waiting for its batch. */
  ghost predicate TakesLastTokens(w: World, amount: nat) {
    amount == w.chain.supply && (Due(w) || w.hub.currentBatch.requestedLstTokenAmount + amount == 0)
  }

  /** Where there is no token, a stake of `payment` lowers the rate if it is worth too little to mint a token at
      it, or, where its check has set the rate to 1, if all that is staked then is worth less than the tokens
      minted would have been worth at it. */
  ghost predicate StakeLowers(w: World, payment: nat) {
    && Tokens(w) == 0
    && var rate := w.hub.state.lstExchangeRate;
       if ChecksRate(w.hub.state.totalStakedAmount, w.chain)
       then (w.hub.state.totalStakedAmount + payment) * ONE < rate * payment
       else payment * ONE < rate
  }

  /** What of a step that goes through lowers a rate above 1. */
  ghost predicate Lowers(w: World, step: Step) {
    var checks := ChecksRate(w.hub.state.totalStakedAmount, w.chain);
    match step
    case Tx(_, info, Stake) => StakeLowers(w, SumOfDenom(info.funds, w.hub.params.stakingCoinDenom))
    case Tx(_, _, StakeRewards) => Tokens(w) == 0
    case Tx(_, _, Unstake(amount)) => checks && TakesLastTokens(w, amount)
    case Tx(_, _, ReceiveUnstake(_, amount)) => checks && TakesLastTokens(w, amount)
    case Tx(_, _, CheckSlashing) => checks && Tokens(w) == 0
    case TokenBurn(_, amount) => checks && amount == Tokens(w)
    case _ => false
  }

  /** A step that is a transaction or a burn succeeds. */
  ghost predicate GoesThrough(w: World, step: Step) {
    match step
    case Tx(q, info, msg) => Transact(w, q, info, msg).Ok?
    case TokenBurn(q, amount) => BurnTokens(w, q, amount).Ok?
    case _ => true
  }

  /** The rate is lower after the step exactly if it was above 1 and the step lowers it; and then it is 1, unless
      the step is a stake. */
  ghost predicate FallIs(w: World, after: World, step: Step) {
    var before, rate := w.hub.state.lstExchangeRate, after.hub.state.lstExchangeRate;
    && (rate < before <==> before > ONE && Lowers(w, step))
    && (rate < before && !(step.Tx? && step.msg.Stake?) ==> rate == ONE)
  }

  // ---------------------------------------------------------------- stakes

  lemma MintsNothing(payment: nat, rate: nat)
    requires rate > 0
    ensures DecimalDivision(payment, rate) == 0 <==> payment * ONE < rate
  {
    Floor(payment * ONE, rate, 0);
  }

  lemma RefreshedBelow(st: State, tokens: nat, r: nat)
    requires tokens > 0 && st.totalStakedAmount > 0
    ensures st.UpdateLstExchangeRate(tokens, 0).lstExchangeRate < r <==> st.totalStakedAmount * ONE < r * tokens
  {
    RatioIsGreatest(st.totalStakedAmount, tokens, r);
    hide FromRatio;
  }

  /** What mints something at a rate it was minted at does not refresh to a lower one. */
  lemma MintedIsCovered(st: State, payment: nat, rate: nat)
    requires rate > 0 && payment > 0
    ensures var minted := DecimalDivision(payment, rate);
            minted > 0 ==>
              rate <= st.(totalStakedAmount := st.totalStakedAmount + payment).UpdateLstExchangeRate(minted, 0)
                      .lstExchangeRate
  {
    var minted := DecimalDivision(payment, rate);
    DivisionBounds(payment, rate);
    hide DecimalDivision, FromRatio;
    if minted > 0 {
      assert rate * minted == minted * rate && payment * ONE <= (st.totalStakedAmount + payment) * ONE;
      RefreshedBelow(st.(totalStakedAmount := st.totalStakedAmount + payment), minted, rate);
    }
  }

  lemma StakeFalls(w: World, q: Queries, info: Info, msg: ExecuteMsg)
    requires SlashFree(w) && Possible(w, Tx(q, info, msg))
    requires msg.Stake? || msg.StakeRewards?
    requires Transact(w, q, info, msg).Ok?
    ensures FallIs(w, Transact(w, q, info, msg).value, Tx(q, info, msg))
  {
    hide Transact, ActualState, CheckedState, UpdatePending, Structured, Solvent, Tracks, RateCovered, Unreleased,
         Backed, Sees, Booked, ChecksRate, FromRatio, DecimalDivision, SoundFor, SlashFreeFor;
    var o, st, payment, minted, queued := StakeTransaction(w, q, info, msg);
    SeesDelegations(w.chain, w.hub.params.stakingCoinDenom, q, Funded(w, info).bank);
    CheckedRate(w, w.hub.currentBatch, q, st);
    if Tokens(w) > 0 {
      StakeKeepsSlashFree(w, q, info, msg);
    } else {
      RateAtLeastOne(w, 0);
      StakeOnNoTokens(st, payment, w.hub.state.lstExchangeRate);
    }
  }

  /** The rate after a stake where there was no token, against the rate `r` before its check. */
  lemma StakeOnNoTokens(st: State, payment: nat, r: nat)
    requires payment > 0 && r >= ONE && (st.lstExchangeRate == r || st.lstExchangeRate == ONE)
    ensures var minted := DecimalDivision(payment, st.lstExchangeRate);
            var rate := st.(totalStakedAmount := st.totalStakedAmount + payment).UpdateLstExchangeRate(minted, 0)
                        .lstExchangeRate;
            && (minted == 0 ==> rate == ONE)
            && (st.lstExchangeRate == ONE ==>
                  (rate < r <==> r > ONE && (st.totalStakedAmount + payment) * ONE < r * payment))
            && (st.lstExchangeRate == r ==> (rate < r <==> r > ONE && payment * ONE < r))
  {
    OneForOne(payment);
    MintsNothing(payment, r);
    MintedIsCovered(st, payment, st.lstExchangeRate);
    RefreshedBelow(st.(totalStakedAmount := st.totalStakedAmount + payment), payment, r);
    hide DecimalDivision, FromRatio;
  }

  // ---------------------------------------------------------------- checks and burns

  lemma CheckFalls(w: World, q: Queries, info: Info, msg: ExecuteMsg)
    requires SlashFree(w) && Possible(w, Tx(q, info, msg))
    requires msg.CheckSlashing?
    requires Transact(w, q, info, msg).Ok?
    ensures FallIs(w, Transact(w, q, info, msg).value, Tx(q, info, msg))
  {
    hide ActualState, CheckedState, SoundFor, SlashFreeFor, Sees, Booked, ChecksRate;
    var st := CheckedState(w.hub, EnvOf(w.chain), q).value;
    SeesDelegations(w.chain, w.hub.params.stakingCoinDenom, q, Funded(w, info).bank);
    CheckedRate(w, w.hub.currentBatch, q, st);
  }

  /** A burn from a world about to have `tokens` tokens counted. */
  lemma BurnFalls(w: World, q: Queries, amount: nat, tokens: nat)
    requires SoundFor(w, tokens) && SlashFreeFor(w, tokens)
    requires Sees(w.chain, w.hub.params.stakingCoinDenom, q, q.balance)
    requires BurnTokens(w, q, amount).Ok?
    requires w.chain.supply >= amount && tokens == w.chain.supply - amount + w.hub.currentBatch.requestedLstTokenAmount
    ensures var after := BurnTokens(w, q, amount).value;
            && Tokens(after) == tokens
            && if tokens > 0 then w.hub.state.lstExchangeRate <= after.hub.state.lstExchangeRate
               else after.hub.state.lstExchangeRate
                    == if ChecksRate(w.hub.state.totalStakedAmount, w.chain) then ONE
                       else w.hub.state.lstExchangeRate
  {
    hide ActualState, CheckedState, SoundFor, SlashFreeFor, Sees, ChecksRate, LoweredByCheck;
    SeesDelegations(w.chain, w.hub.params.stakingCoinDenom, q, q.balance);
    var q1 := q.(supply := w.chain.supply - amount);
    CheckedRate(w, w.hub.currentBatch, q1, CheckedState(w.hub, EnvOf(w.chain), q1).value);
  }

  lemma FewerTokensKeepFree(w: World, tokens: nat, fewer: nat)
    requires SoundFor(w, tokens) && SlashFreeFor(w, tokens) && fewer <= tokens
    ensures SoundFor(w, fewer) && SlashFreeFor(w, fewer)
  {
    FewerTokensKeepSlashFree(w, tokens, fewer);
    hide Structured, Solvent, Tracks, Unreleased, RateCovered, Backed, SlashFreeFor;
    FewerTokens(w.hub.state, tokens, fewer);
  }

  lemma TokenBurnFalls(w: World, q: Queries, amount: nat)
    requires SlashFree(w) && Possible(w, TokenBurn(q, amount))
    requires BurnTokens(w, q, amount).Ok?
    ensures FallIs(w, BurnTokens(w, q, amount).value, TokenBurn(q, amount))
  {
    hide SoundFor, SlashFreeFor, BurnTokens, Sees, ChecksRate;
    BurnNeedsSupply(w, q, amount);
    SeesOwnBalance(w, q);
    FewerTokensKeepFree(w, Tokens(w), Tokens(w) - amount);
    BurnFalls(w, q, amount, Tokens(w) - amount);
    RateAtLeastOne(w, Tokens(w));
  }

  lemma RateAtLeastOne(w: World, tokens: nat)
    requires SlashFreeFor(w, tokens)
    ensures w.hub.state.lstExchangeRate >= ONE
  {
    hide WithinReach, Backed;
  }

  // ---------------------------------------------------------------- unstakes

  /** The epoch check keeps the checked rate, and whether a later check gets to it: a batch it undelegates is
      queued as it leaves the total. */
  lemma EpochCheckRate(w: World, stored: CurrentBatch, q: Queries, o: Outcome) returns (st: State)
    requires SoundFor(w, q.supply + stored.requestedLstTokenAmount)
    requires BatchEpochChecked(w.hub.(currentBatch := stored), w.hub.currentBatch, EnvOf(w.chain), q) == Ok(o)
    requires CheckedState(w.hub.(currentBatch := stored), EnvOf(w.chain), q).Ok? ==>
               var checked := CheckedState(w.hub.(currentBatch := stored), EnvOf(w.chain), q).value;
               checked.totalStakedAmount == w.hub.state.totalStakedAmount
               && checked.lastUnbondedTime == w.hub.state.lastUnbondedTime
    ensures CheckedState(w.hub.(currentBatch := stored), EnvOf(w.chain), q) == Ok(st)
    ensures o.ledger.state.lstExchangeRate == st.lstExchangeRate
    ensures o.ledger.currentBatch.requestedLstTokenAmount == if Due(w) then 0
                                                             else w.hub.currentBatch.requestedLstTokenAmount
    ensures Due(w) ==> w.hub.currentBatch.requestedLstTokenAmount > 0
    ensures ChecksRate(o.ledger.state.totalStakedAmount, w.chain.(queue := w.chain.queue + o.messages))
       <==> ChecksRate(w.hub.state.totalStakedAmount, w.chain)
  {
    hide ActualState, CheckedState, BatchEpochChecked, BatchProcessed, SoundFor, UpdatePending, DecimalMultiplication,
         Undelegations, UndelegateMessages, Totals, UnstakedFrom, SumValues, QueuedStake, QueuedUnstake;
    var l, batch, env := w.hub.(currentBatch := stored), w.hub.currentBatch, EnvOf(w.chain);
    var o1;
    o1, st := BatchEpochEffect(l, batch, env, q);
    SoundParts(w, q.supply + stored.requestedLstTokenAmount);
    QueueAppend(w.chain.queue, o.messages);
    if Due(w) {
      var o2, unstaked := BatchProcessedEffect(l.(state := st), batch, env, q);
      NothingForNothing(st.lstExchangeRate);
    } else {
      assert w.chain.queue + o.messages == w.chain.queue;
    }
  }

  lemma NothingForNothing(rate: nat)
    ensures DecimalMultiplication(0, rate) == 0
  {
  }

  lemma UnstakeFalls(w: World, q: Queries, info: Info, msg: ExecuteMsg)
    requires SlashFree(w) && Possible(w, Tx(q, info, msg))
    requires IsUnstake(msg)
    requires Transact(w, q, info, msg).Ok?
    ensures FallIs(w, Transact(w, q, info, msg).value, Tx(q, info, msg))
  {
    hide Transact, BatchEpochChecked, SoundFor, SlashFreeFor, BurnTokens, Recorded, LoweredByCheck, Sees, ChecksRate,
         CheckedState, Due;
    var l, amount := w.hub, UnstakeAmount(msg);
    var o, mid, tokens := UnstakeBeforeBurn(w, q, info, msg);
    var recorded := RecordedWorld(w, info, msg);
    RecordedIsSlashFree(w, q, info, msg);
    SeesDelegations(recorded.chain, l.params.stakingCoinDenom, q, q.balance);
    if CheckedState(recorded.hub.(currentBatch := l.currentBatch), EnvOf(w.chain), q).Ok? {
      CheckedRate(recorded, l.currentBatch, q,
                  CheckedState(recorded.hub.(currentBatch := l.currentBatch), EnvOf(w.chain), q).value);
    }
    var st := EpochCheckRate(recorded, l.currentBatch, q, o);
    BurnFalls(mid, q, amount, tokens);
    RateAtLeastOne(mid, tokens);
    RecordedReads(w, info, msg);
    ChecksRateReads(mid.hub.state.totalStakedAmount, mid.chain, recorded.chain.(queue := mid.chain.queue));
    ChecksRateReads(w.hub.state.totalStakedAmount, w.chain, recorded.chain);
  }

  lemma RecordedReads(w: World, info: Info, msg: ExecuteMsg)
    requires IsUnstake(msg)
    ensures Due(RecordedWorld(w, info, msg)) <==> Due(w)
    ensures RecordedWorld(w, info, msg).hub.state == w.hub.state
  {
    hide Recorded;
  }

  lemma ChecksRateReads(staked: nat, c: Chain, d: Chain)
    requires c.delegated == d.delegated && c.queue == d.queue
    ensures ChecksRate(staked, c) <==> ChecksRate(staked, d)
  {
  }

  // ---------------------------------------------------------------- every step

  lemma TransactionFalls(w: World, q: Queries, info: Info, msg: ExecuteMsg)
    requires SlashFree(w) && Possible(w, Tx(q, info, msg))
    requires Transact(w, q, info, msg).Ok?
    ensures FallIs(w, Transact(w, q, info, msg).value, Tx(q, info, msg))
  {
    hide Transact, SlashFree, SlashFreeFor, FallIs, Lowers, Possible;
    if msg.Stake? || msg.StakeRewards? {
      StakeFalls(w, q, info, msg);
    } else if IsUnstake(msg) {
      UnstakeFalls(w, q, info, msg);
    } else if msg.CheckSlashing? {
      CheckFalls(w, q, info, msg);
    } else {
      OthersKeepRate(w, q, info, msg);
    }
  }

  /** A batch undelegated on its own has tokens, and leaves at the rate that stays. */
  lemma OthersKeepRate(w: World, q: Queries, info: Info, msg: ExecuteMsg)
    requires SlashFree(w) && Possible(w, Tx(q, info, msg))
    requires Transact(w, q, info, msg).Ok?
    requires !msg.Stake? && !msg.StakeRewards? && !IsUnstake(msg) && !msg.CheckSlashing?
    ensures FallIs(w, Transact(w, q, info, msg).value, Tx(q, info, msg))
  {
    hide Transact, SlashFreeFor, SoundFor, Possible, BatchEpochChecked, UpdatedParams;
    if IsSetting(msg) {
      var after := SettingTransaction(w, q, info, msg);
    } else if msg.ProcessUndelegations? {
      if w.hub.currentBatch.requestedLstTokenAmount == 0 {
        NothingUndelegated(w, q, info, msg);
      } else {
        ProcessedKeepsRate(w, q, info, msg);
      }
    } else {
      var after := PassTransaction(w, q, info, msg);
    }
  }

  lemma ProcessedKeepsRate(w: World, q: Queries, info: Info, msg: ExecuteMsg)
    requires SlashFree(w) && Possible(w, Tx(q, info, msg))
    requires msg.ProcessUndelegations? && w.hub.currentBatch.requestedLstTokenAmount > 0
    requires Transact(w, q, info, msg).Ok?
    ensures w.hub.state.lstExchangeRate <= Transact(w, q, info, msg).value.hub.state.lstExchangeRate
  {
    hide Transact, SlashFreeFor, SoundFor, BatchEpochChecked, Sees;
    var o, after := UndelegationsBooks(w, q, info, msg);
    SeesArrived(w, q, info);
    var o1, after1 := EpochKeepsSlashFree(Arrived(w, info), w.hub.currentBatch, q, Tokens(w));
  }

  /** In a slash-free world, whatever the step but a slash: the rate falls exactly if it was above 1, the step goes
      through, and it is one that lowers it. But for a stake it falls to 1. */
  lemma RateFallsIff(w: World, step: Step)
    requires SlashFree(w) && Possible(w, step) && !step.Slash?
    ensures w.chain.epochLength > 0 && w.chain.epochOrigin <= w.chain.height
    ensures var before, rate := w.hub.state.lstExchangeRate, Next(w, step).hub.state.lstExchangeRate;
            && (rate < before <==> before > ONE && GoesThrough(w, step) && Lowers(w, step))
            && (rate < before && !(step.Tx? && step.msg.Stake?) ==> rate == ONE)
  {
    SoundHasEpochs(w);
    hide SlashFree, Transact, BurnTokens, StakeLowers, TakesLastTokens, ChecksRate, NewBlock;
    match step
    case Tx(q, info, msg) =>
      if Transact(w, q, info, msg).Ok? {
        TransactionFalls(w, q, info, msg);
      }
    case TokenBurn(q, amount) =>
      if BurnTokens(w, q, amount).Ok? {
        TokenBurnFalls(w, q, amount);
      }
    case _ =>
  }

  /** Over any stretch of a run without slashing that ends with a lower rate, there was such a step. */
  lemma {:induction false} SomeStepLowers(start: World, steps: seq<Step>, end: World) returns (n: nat, mid: World)
    requires SlashFree(start) && Run(start, steps, end) && NoSlash(steps)
    requires end.hub.state.lstExchangeRate < start.hub.state.lstExchangeRate
    ensures n < |steps| && Run(start, steps[..n], mid) && SlashFree(mid) && Possible(mid, steps[n])
    ensures mid.hub.state.lstExchangeRate > ONE && GoesThrough(mid, steps[n]) && Lowers(mid, steps[n])
    decreases |steps|
  {
    hide SlashFree, Next, Possible, GoesThrough, Lowers;
    n := |steps| - 1;
    mid :| Run(start, steps[..n], mid)
           && mid.chain.epochLength > 0 && mid.chain.epochOrigin <= mid.chain.height
           && Possible(mid, steps[n])
           && end == Next(mid, steps[n]);
    assert steps[n] in steps;
    RunKeepsSlashFree(start, steps[..n], mid);
    RateFallsIff(mid, steps[n]);
    if mid.hub.state.lstExchangeRate < start.hub.state.lstExchangeRate {
      var last := n;
      n, mid := SomeStepLowers(start, steps[..n], mid);
      assert steps[..last][..n] == steps[..n];
    }
  }
}
