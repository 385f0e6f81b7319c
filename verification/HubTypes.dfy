/** The staking hub's stored items (packages/lst_common/src/hub.rs,
    contracts/lst_staking_hub/src/state.rs), what a transaction sees of its environment, and the
    messages it sends. */
module HubTypes {
  import opened Wrappers
  import opened Sums
  import opened FixedPoint
  import opened PendingEpoch
  import opened Delegation

  type Addr = string

  datatype Coin = Coin(denom: string, amount: nat)

  datatype State = State(
    lstExchangeRate: nat,
    totalStakedAmount: nat,
    lastIndexModification: nat,
    unclaimedUnstakedBalance: nat,
    lastUnbondedTime: nat,
    lastProcessedBatch: nat)
  {
    function UpdateLstExchangeRate(totalIssued: nat, requested: nat): State {
      var totalTokenSupply := totalIssued + requested;
      if totalStakedAmount == 0 || totalTokenSupply == 0 then
        this.(lstExchangeRate := ONE)
      else
        this.(lstExchangeRate := FromRatio(totalStakedAmount, totalTokenSupply))
    }
  }

  datatype Config = Config(
    owner: Addr,
    lstToken: Option<Addr>,
    validatorsRegistry: Option<Addr>,
    rewardDispatcher: Option<Addr>)

  datatype Parameters = Parameters(epochLength: nat, stakingCoinDenom: string, unstakingPeriod: nat, paused: bool)

  datatype CurrentBatch = CurrentBatch(id: nat, requestedLstTokenAmount: nat)

  datatype UnstakeHistory = UnstakeHistory(
    batchId: nat,
    time: nat,
    lstTokenAmount: nat,
    lstAppliedExchangeRate: nat,
    lstWithdrawRate: nat,
    released: bool)

  /** Wait-list entries by user and batch. */
  type WaitList = map<(Addr, nat), nat>

  type History = map<nat, UnstakeHistory>

  /** Everything the hub stores. */
  datatype Ledger = Ledger(
    config: Config,
    params: Parameters,
    state: State,
    currentBatch: CurrentBatch,
    waitList: WaitList,
    history: History,
    pending: PendingDelegation)

  datatype Env = Env(height: nat, time: nat)

  /** The answers to the queries a transaction makes: the hub's delegations on the chain, the token's
      supply, the hub's coin balance, the registry's validators, and the sender's token balance and
      allowance to the hub. */
  datatype Queries = Queries(
    delegations: seq<Coin>,
    supply: nat,
    balance: nat,
    validators: seq<ValidatorResponse>,
    tokenBalance: nat,
    allowance: nat)

  datatype Message =
    | Delegate(validator: Addr, amount: nat)
    | Undelegate(validator: Addr, amount: nat)
    | Mint(recipient: Addr, minted: nat)
    | Burn(burnt: nat)
    | BurnFrom(owner: Addr, burnt: nat)
    | Send(to: Addr, paid: nat)
    | Redelegate(source: Addr, destination: Addr, moved: nat)
    | WithdrawReward(place: nat)
    | DispatchRewards
    | SetWithdrawAddress(address: Addr)

  datatype Outcome = Outcome(ledger: Ledger, messages: seq<Message>)

  datatype StakeType = LSTMint | StakeRewards

  datatype UnstakeType = BurnFlow | BurnFromFlow

  datatype Option<+T> = None | Some(value: T)

  function OkOr<T>(o: Option<T>, error: Error): Result<T> {
    if o.Some? then Ok(o.value) else Err(error)
  }

  function SumOfDenom(coins: seq<Coin>, denom: string): nat {
    if coins == [] then 0
    else
      var last := coins[|coins| - 1];
      SumOfDenom(coins[..|coins| - 1], denom) + if last.denom == denom then last.amount else 0
  }

  /** What the coin at each position counts for. */
  ghost function Amounts(coins: seq<Coin>, denom: string): (s: seq<nat>)
    ensures |s| == |coins|
  {
    seq(|coins|, i requires 0 <= i < |coins| => if coins[i].denom == denom then coins[i].amount else 0)
  }

  /** The sum runs over all positions: coins that are equal count each. */
  lemma {:induction false} SumOfDenomIsSum(coins: seq<Coin>, denom: string)
    ensures SumOfDenom(coins, denom) == Sum(Amounts(coins, denom))
  {
    if coins != [] {
      var n := |coins| - 1;
      SumOfDenomIsSum(coins[..n], denom);
      assert Amounts(coins, denom)[..n] == Amounts(coins[..n], denom);
    }
  }

  /** No coin counts for nothing, one for its amount if it is of the denomination, and what two lists hold
      together for the sum of both. */
  lemma SumOfDenomAdds(coins: seq<Coin>, more: seq<Coin>, c: Coin, denom: string)
    ensures SumOfDenom([], denom) == 0
    ensures SumOfDenom([c], denom) == if c.denom == denom then c.amount else 0
    ensures SumOfDenom(coins + more, denom) == SumOfDenom(coins, denom) + SumOfDenom(more, denom)
  {
    SumOfDenomIsSum(coins, denom);
    SumOfDenomIsSum(more, denom);
    SumOfDenomIsSum(coins + more, denom);
    assert Amounts(coins + more, denom) == Amounts(coins, denom) + Amounts(more, denom);
    SumAppend(Amounts(coins, denom), Amounts(more, denom));
    assert [c][..0] == [];
  }
}
