/** The reward dispatcher's split of the rewards into a fee and what is staked again
    (contracts/lst_reward_dispatcher/src/contract.rs). */
module RewardDispatcher {
  import opened Wrappers
  import opened FixedPoint

  datatype RewardMessage =
    | Fee(amount: nat)
    | Restake(amount: nat)

  function Ceiling(atomics: nat): nat {
    if atomics % ONE == 0 then atomics / ONE else atomics / ONE + 1
  }

  function ComputeFee(amount: nat, feeRate: nat): nat {
    Ceiling(DecimalMultiplication(FromRatio(amount, 1), feeRate))
  }

  /** Who asks, whether the hub is paused, and what there is to dispatch. */
  datatype Request = Request(sender: string, hub: string, hubPaused: bool, rewards: nat)

  function Dispatched(request: Request, feeRate: nat): Result<seq<RewardMessage>> {
    if request.hubPaused then Err(HubPaused)
    else if request.sender != request.hub then Err(Unauthorized)
    else
      var fee := ComputeFee(request.rewards, feeRate);
      var rest :- Minus(request.rewards, fee, Overflow);
      Ok((if fee == 0 then [] else [Fee(fee)]) + if rest == 0 then [] else [Restake(rest)])
  }

  method ExecuteDispatchRewards(request: Request, feeRate: nat) returns (r: Result<seq<RewardMessage>>)
    ensures r == Dispatched(request, feeRate)
  {
    hide ComputeFee;
    if request.hubPaused {
      return Err(HubPaused);
    }
    if request.sender != request.hub {
      return Err(Unauthorized);
    }
    var rewards := request.rewards;
    var messages := [];
    var rewardFee := ComputeFee(rewards, feeRate);
    if rewardFee != 0 {
      messages := messages + [Fee(rewardFee)];
    }
    rewards :- Minus(rewards, rewardFee, Overflow);
    if rewards != 0 {
      messages := messages + [Restake(rewards)];
    }
    assert messages == (if rewardFee == 0 then [] else [Fee(rewardFee)])
                       + if rewards == 0 then [] else [Restake(rewards)];
    r := Ok(messages);
  }

  /** The fee is the rate's share of the rewards, rounded up to the coin: the least number of coins not
      below it. */
  lemma FeeIsShareRoundedUp(amount: nat, feeRate: nat, coins: nat)
    ensures ComputeFee(amount, feeRate) <= coins <==> amount * feeRate <= coins * ONE
  {
    assert FromRatio(amount, 1) == amount * ONE;
    assert amount * ONE * feeRate == amount * feeRate * ONE;
    Floor(amount * ONE * feeRate, ONE, amount * feeRate);
    var share := amount * feeRate;
    assert DecimalMultiplication(FromRatio(amount, 1), feeRate) == share;
    assert share == share / ONE * ONE + share % ONE;
  }

  /** The dispatch fails exactly if the hub is paused, another asks, or the rate takes more than there is, which
      no rate up to 1 does. Otherwise there are at most two messages, none of zero coins: the first sends the
      fee, which is the share of the rewards rounded up, and the second stakes exactly the rest again. */
  lemma DispatchSplitsRewards(request: Request, feeRate: nat) returns (fee: nat)
    ensures request.rewards * feeRate <= fee * ONE
    ensures fee > 0 ==> (fee - 1) * ONE < request.rewards * feeRate
    ensures var r := Dispatched(request, feeRate);
            if request.hubPaused then r == Err(HubPaused)
            else if request.sender != request.hub then r == Err(Unauthorized)
            else if request.rewards > 0 && feeRate > ONE then r == Err(Overflow)
            else
              && r.Ok? && fee <= request.rewards
              && (forall m :: m in r.value <==> m.amount > 0 && (m == Fee(fee) || m == Restake(request.rewards - fee)))
              && (forall i, j | 0 <= i < j < |r.value| :: r.value[i].Fee? && r.value[j].Restake?)
  {
    fee := ComputeFee(request.rewards, feeRate);
    hide ComputeFee;
    FeeIsShareRoundedUp(request.rewards, feeRate, fee);
    if fee > 0 {
      FeeIsShareRoundedUp(request.rewards, feeRate, fee - 1);
    }
    FeeFits(request.rewards, feeRate);
  }

  lemma FeeFits(rewards: nat, feeRate: nat)
    ensures ComputeFee(rewards, feeRate) <= rewards <==> rewards == 0 || feeRate <= ONE
  {
    hide ComputeFee;
    FeeIsShareRoundedUp(rewards, feeRate, rewards);
    RateIsShare(rewards, feeRate);
  }

  lemma RateIsShare(amount: nat, feeRate: nat)
    ensures amount * feeRate <= amount * ONE <==> amount == 0 || feeRate <= ONE
  {
    if amount > 0 && feeRate > ONE {
      assert amount * (feeRate - ONE) > 0;
    } else if feeRate <= ONE {
      assert amount * (ONE - feeRate) >= 0;
    }
  }
}
