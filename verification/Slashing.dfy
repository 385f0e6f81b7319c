/** What the slashing check does to the hub's total and rate (contracts/lst_staking_hub/src/contract.rs,
    check_slashing and query_actual_state; packages/lst_common/src/hub.rs, update_lst_exchange_rate). */
module Slashing {
  import opened Wrappers
  import opened FixedPoint
  import opened PendingEpoch
  import opened Delegation
  import opened HubTypes
  import opened Handlers

  /** The tokens at this rate are worth no more than what is staked. The one exception is a hub
      whose stake is all gone: the rate then falls back to 1. */
  ghost predicate RateBound(st: State, tokens: nat) {
    RateCovered(st.lstExchangeRate, st.totalStakedAmount, tokens)
  }

  ghost predicate RateCovered(rate: nat, staked: nat, tokens: nat) {
    Backed(rate, staked, tokens) || (staked == 0 && rate == ONE)
  }

  ghost predicate Backed(rate: nat, staked: nat, tokens: nat) { rate * tokens <= staked * ONE }

  /** Refreshing the rate establishes the bound, and gives a rate at least as high as any rate `r`
      that the stake covers, except for the reset to 1 when there is no stake or no token left. */
  lemma RefreshedRate(st: State, issued: nat, requested: nat, r: nat)
    ensures var after := st.UpdateLstExchangeRate(issued, requested);
            && after == st.(lstExchangeRate := after.lstExchangeRate)
            && RateBound(after, issued + requested)
            && (issued + requested == 0 || st.totalStakedAmount == 0 ==> after.lstExchangeRate == ONE)
            && (issued + requested > 0 && st.totalStakedAmount > 0
                && Backed(r, st.totalStakedAmount, issued + requested)
                ==> r <= after.lstExchangeRate)
  {
    var tokens := issued + requested;
    if tokens > 0 {
      RatioIsGreatest(st.totalStakedAmount, tokens, FromRatio(st.totalStakedAmount, tokens));
      RatioIsGreatest(st.totalStakedAmount, tokens, r);
    }
  }

  /** The check returns before it looks at the total. */
  ghost predicate ReturnsEarly(st: State, pendingStaked: nat, pendingUnstaked: nat, q: Queries) {
    q.delegations == [] || st.totalStakedAmount - pendingStaked + pendingUnstaked == 0
  }

  /** Past its early returns, the check sets the total to the lesser of itself and what the chain
      holds plus what is queued to be staked less what is queued to be unstaked; it fails exactly
      when the queued stake exceeds the total, or when that second amount is below zero. */
  lemma CheckTakesMinimum(st: State, denom: string, requested: nat, pending: PendingDelegation, env: Env, q: Queries)
    requires GetPending(pending, env.height).Ok?
    ensures var (ps, pu) := GetPending(pending, env.height).value;
            var actual := SumOfDenom(q.delegations, denom);
            var r := ActualState(st, denom, requested, pending, env, q);
            && (q.delegations == [] ==> r == Ok(st))
            && (q.delegations != [] ==>
                  (r.Ok? <==> st.totalStakedAmount >= ps
                              && (st.totalStakedAmount - ps + pu > actual ==> actual + ps >= pu)))
            && (r.Ok? && ReturnsEarly(st, ps, pu, q) ==> r == Ok(st))
            && (r.Ok? && !ReturnsEarly(st, ps, pu, q) ==>
                  && actual + ps - pu >= 0
                  && r.value.totalStakedAmount == Min(st.totalStakedAmount, actual + ps - pu)
                  && r.value == r.value.UpdateLstExchangeRate(q.supply, requested)
                  && r.value == st.(totalStakedAmount := r.value.totalStakedAmount,
                                    lstExchangeRate := r.value.lstExchangeRate))
  {
  }

  /** A check goes through exactly if its amounts do and, where it does not return early, a token is named whose
      supply it can ask for. */
  lemma CheckNeedsToken(l: Ledger, env: Env, q: Queries)
    requires GetPending(l.pending, env.height).Ok?
    ensures var (ps, pu) := GetPending(l.pending, env.height).value;
            var amounts := ActualState(l.state, l.params.stakingCoinDenom, l.currentBatch.requestedLstTokenAmount,
                                       l.pending, env, q);
            var r := CheckedState(l, env, q);
            && (r.Ok? <==> amounts.Ok? && (l.config.lstToken.Some? || ReturnsEarly(l.state, ps, pu, q)))
            && (r.Ok? ==> r == amounts)
            && (amounts.Ok? && r.Err? ==> r == Err(LstTokenNotSet))
  {
  }

  /** The chain was slashed to less than what is queued to be unstaked. */
  ghost predicate SlashedBelowQueue(l: Ledger, env: Env, q: Queries)
    requires GetPending(l.pending, env.height).Ok?
  {
    var (ps, pu) := GetPending(l.pending, env.height).value;
    var actual := SumOfDenom(q.delegations, l.params.stakingCoinDenom);
    q.delegations != [] && l.state.totalStakedAmount - ps + pu > actual && actual < pu
  }

  /** Running the check twice in one environment is running it once, early returns included, exactly
      if the chain was not slashed below what is queued to be unstaked. If it was, the lowered
      total is below the queued stake, and every later check in the epoch panics. */
  lemma CheckIsIdempotentIff(l: Ledger, env: Env, q: Queries)
    requires GetPending(l.pending, env.height).Ok?
    requires SlashingChecked(l, env, q).Ok?
    ensures SlashingChecked(SlashingChecked(l, env, q).value, env, q) == SlashingChecked(l, env, q)
        <==> !SlashedBelowQueue(l, env, q)
    ensures SlashedBelowQueue(l, env, q) ==> SlashingChecked(SlashingChecked(l, env, q).value, env, q) == Err(Panic)
  {
    var st1 := SlashingChecked(l, env, q).value.state;
    if q.delegations != [] {
      var (ps, pu) := GetPending(l.pending, env.height).value;
      CheckTakesMinimum(l.state, l.params.stakingCoinDenom, l.currentBatch.requestedLstTokenAmount, l.pending, env, q);
      CheckTakesMinimum(st1, l.params.stakingCoinDenom, l.currentBatch.requestedLstTokenAmount, l.pending, env, q);
      if !ReturnsEarly(l.state, ps, pu, q) {
        assert st1 == st1.UpdateLstExchangeRate(q.supply, l.currentBatch.requestedLstTokenAmount);
      }
    }
  }

  /** A ledger with 20 coins queued to be staked and a batch of 15 undelegated in the same staking epoch. */
  function QueuedBothWays(): Ledger {
    Ledger(Config("owner", Some("token"), Some("registry"), Some("rewards")), Parameters(20, "ubbn", 100, false),
           State(ONE, 100, 0, 0, 30, 0), CurrentBatch(2, 0), map[("ada", 1) := 15],
             map[1 := UnstakeHistory(1, 30, 15, ONE, ONE, false)],
           PendingDelegation(1, 1, 20, 15))
  }

  /** A check that cannot be repeated: 10 coins are left of that on the chain. */
  lemma CheckPanicsTheSecondTime()
    ensures var q := Queries([Coin("ubbn", 10)], 100, 20, [ValidatorResponse(10, "validator")], 0, 0);
            var first := SlashingChecked(QueuedBothWays(), Env(1, 30), q);
            && first.Ok? && first.value.state.totalStakedAmount == 15
            && SlashedBelowQueue(QueuedBothWays(), Env(1, 30), q)
            && SlashingChecked(first.value, Env(1, 30), q) == Err(Panic)
  {
    var q := Queries([Coin("ubbn", 10)], 100, 20, [ValidatorResponse(10, "validator")], 0, 0);
    assert q.delegations[..0] == [];
    assert SumOfDenom(q.delegations, "ubbn") == 10;
    CheckTakesMinimum(QueuedBothWays().state, "ubbn", 0, QueuedBothWays().pending, Env(1, 30), q);
    CheckIsIdempotentIff(QueuedBothWays(), Env(1, 30), q);
  }

  /** In any environment the check writes the total and the rate only, never raises the total, and
      keeps the rate bound. */
  lemma CheckKeepsRateBound(st: State, denom: string, requested: nat, pending: PendingDelegation, env: Env, q: Queries)
    requires ActualState(st, denom, requested, pending, env, q).Ok?
    requires RateBound(st, q.supply + requested)
    ensures var after := ActualState(st, denom, requested, pending, env, q).value;
            && after == st.(totalStakedAmount := after.totalStakedAmount, lstExchangeRate := after.lstExchangeRate)
            && after.totalStakedAmount <= st.totalStakedAmount
            && RateBound(after, q.supply + requested)
  {
    if q.delegations != [] {
      CheckTakesMinimum(st, denom, requested, pending, env, q);
      var after := ActualState(st, denom, requested, pending, env, q).value;
      RefreshedRate(after, q.supply, requested, 0);
    }
  }
}
