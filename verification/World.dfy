/** The hub on its chain: the token's supply, the hub's coins, its delegations, and the staking
    messages the chain queues until the end of a staking epoch (packages/lst_common/src/babylon.rs
    and testing.rs describe such a chain). Transactions are atomic; between them the chain produces
    blocks, returns unbonded coins, and may slash. */
module World {
  import opened Wrappers
  import opened Sums
  import opened Delegation
  import opened PendingEpoch
  import opened HubTypes
  import opened Claims
  import opened Handlers

  const NANOS_PER_SECOND: nat := 1_000_000_000

  datatype Chain = Chain(
    epochOrigin: nat,
    epochLength: nat,
    height: nat,
    nanos: nat,
    bank: nat,
    supply: nat,
    delegated: map<Addr, nat>,
    queue: seq<Message>,
    unbonding: nat)

  /** What is counted beside the code, to state what it conserves: coins staked in, coins paid out,
      coins written off by slashing checks, the rounding allowance of released batches (their entries
      less one each), what repeated ids were paid beyond what was owed, and where the last batch was
      undelegated. */
  datatype Books = Books(
    deposited: nat,
    paidOut: nat,
    writtenOff: nat,
    dust: nat,
    overpaid: nat,
    lastBatchHeight: Option<nat>)

  datatype World = World(hub: Ledger, chain: Chain, books: Books)

  function At(m: map<Addr, nat>, v: Addr): nat { if v in m then m[v] else 0 }

  function EnvOf(c: Chain): Env { Env(c.height, c.nanos / NANOS_PER_SECOND) }

  // ---------------------------------------------------------------- the epoch queue

  function StakedBy(m: Message): nat { if m.Delegate? then m.amount else 0 }

  function UnstakedBy(m: Message): nat { if m.Undelegate? then m.amount else 0 }

  function QueuedStake(queue: seq<Message>): nat {
    if queue == [] then 0 else QueuedStake(queue[..|queue| - 1]) + StakedBy(queue[|queue| - 1])
  }

  function QueuedUnstake(queue: seq<Message>): nat {
    if queue == [] then 0 else QueuedUnstake(queue[..|queue| - 1]) + UnstakedBy(queue[|queue| - 1])
  }

  /** What the queue stakes with one validator. */
  function StakedWith(queue: seq<Message>, v: Addr): nat {
    if queue == [] then 0
    else
      var last := queue[|queue| - 1];
      StakedWith(queue[..|queue| - 1], v) + if last.Delegate? && last.validator == v then last.amount else 0
  }

  /** What the queue takes from one validator. */
  function UnstakedFrom(queue: seq<Message>, v: Addr): nat {
    if queue == [] then 0
    else
      var last := queue[|queue| - 1];
      UnstakedFrom(queue[..|queue| - 1], v) + if last.Undelegate? && last.validator == v then last.amount else 0
  }

  /** Every validator has what the queue takes from it. */
  ghost predicate Covered(delegated: map<Addr, nat>, queue: seq<Message>) {
    forall v :: UnstakedFrom(queue, v) <= At(delegated, v)
  }

  /** A queued message that cannot be carried out is dropped. */
  function DrainOne(c: Chain, m: Message): Chain {
    match m
    case Delegate(v, a) =>
      if a <= c.bank then c.(bank := c.bank - a, delegated := c.delegated[v := At(c.delegated, v) + a]) else c
    case Undelegate(v, a) =>
      if a <= At(c.delegated, v) then
        c.(delegated := c.delegated[v := At(c.delegated, v) - a], unbonding := c.unbonding + a)
      else c
    case _ => c
  }

  /** Carries out the queue in order. */
  function Drain(c: Chain, queue: seq<Message>): Chain {
    if queue == [] then c else DrainOne(Drain(c, queue[..|queue| - 1]), queue[|queue| - 1])
  }

  // ---------------------------------------------------------------- transactions

  /** The answers `q` are those of the chain, for a hub that holds `balance` coins. The chain lists
      only positive delegations; the registry lists validators once each. */
  ghost predicate Sees(c: Chain, denom: string, q: Queries, balance: nat) {
    && SumOfDenom(q.delegations, denom) == SumValues(c.delegated)
    && (q.delegations == [] <==> SumValues(c.delegated) == 0)
    && q.supply == c.supply
    && q.balance == balance
    && (forall i | 0 <= i < |q.validators| ::
          q.validators[i].totalDelegated == At(c.delegated, q.validators[i].address))
    && (forall i, j | 0 <= i < j < |q.validators| :: q.validators[i].address != q.validators[j].address)
  }

  /** What a slashing check takes off the total. */
  function LoweredByCheck(l: Ledger, env: Env, q: Queries): nat {
    var st := CheckedState(l, env, q);
    if st.Ok? && st.value.totalStakedAmount <= l.state.totalStakedAmount then
      l.state.totalStakedAmount - st.value.totalStakedAmount
    else 0
  }

  /** The token burns, and tells the hub to check for slashing. */
  function BurnTokens(w: World, q: Queries, amount: nat): Result<World> {
    var supply :- Minus(w.chain.supply, amount, Overflow);
    var q1 := q.(supply := supply);
    var o :- Execute(w.hub, EnvOf(w.chain), q1, Info("token", []), CheckSlashing);
    Ok(World(o.ledger, w.chain.(supply := supply),
             w.books.(writtenOff := w.books.writtenOff + LoweredByCheck(w.hub, EnvOf(w.chain), q1))))
  }

  /** What redelegating and withdrawing rewards do to the chain are steps of their own. */
  function DeliverOne(w: World, q: Queries, m: Message): Result<World> {
    match m
    case Delegate(_, _) => Ok(w.(chain := w.chain.(queue := w.chain.queue + [m])))
    case Undelegate(_, _) => Ok(w.(chain := w.chain.(queue := w.chain.queue + [m])))
    case Mint(_, amount) => Ok(w.(chain := w.chain.(supply := w.chain.supply + amount)))
    case Burn(amount) => BurnTokens(w, q, amount)
    case BurnFrom(_, amount) => BurnTokens(w, q, amount)
    case Redelegate(_, _, _) => Ok(w)
    case WithdrawReward(_) => Ok(w)
    case DispatchRewards => Ok(w)
    case SetWithdrawAddress(_) => Ok(w)
    case Send(_, amount) =>
      var bank :- Minus(w.chain.bank, amount, InsufficientFunds);
      Ok(w.(chain := w.chain.(bank := bank), books := w.books.(paidOut := w.books.paidOut + amount)))
  }

  function Deliver(w: World, q: Queries, messages: seq<Message>): Result<World> {
    if messages == [] then Ok(w)
    else
      var w1 :- Deliver(w, q, messages[..|messages| - 1]);
      DeliverOne(w1, q, messages[|messages| - 1])
  }

  /** The rounding allowance of the batches after `after` up to `last`. */
  ghost function ReleaseDust(waitList: WaitList, after: nat, last: nat): nat {
    if last <= after then 0
    else ReleaseDust(waitList, after, last - 1) + Max(|BatchEntries(waitList, last)|, 1) - 1
  }

  predicate ChecksSlashing(l: Ledger, msg: ExecuteMsg) {
    || msg.Stake? || msg.StakeRewards? || msg.Unstake? || msg.ReceiveUnstake? || msg.CheckSlashing?
    || (msg.ProcessUndelegations? && l.currentBatch.requestedLstTokenAmount > 0)
  }

  /** What the books record for a handler that took the ledger to `after`. */
  ghost function Booked(w: World, q: Queries, info: Info, msg: ExecuteMsg, after: Ledger): Books {
    var l := w.hub;
    var b := w.books;
    b.(deposited := b.deposited + if msg.Stake? || msg.StakeRewards?
       then SumOfDenom(info.funds, l.params.stakingCoinDenom)
         else 0, writtenOff := b.writtenOff + if ChecksSlashing(l, msg) then LoweredByCheck(l, EnvOf(w.chain), q)
           else 0,
       dust := b.dust + ReleaseDust(l.waitList, l.state.lastProcessedBatch, after.state.lastProcessedBatch),
       overpaid := b.overpaid +
         (match msg
          case WithdrawUnstaked =>
            Repeated(l.waitList, after.history, info.sender, AskedBatches(l, info.sender, None))
          case WithdrawUnstakedForBatches(ids) => Repeated(l.waitList, after.history, info.sender, ids)
          case _ => 0),
       lastBatchHeight := if after.currentBatch.id != l.currentBatch.id then Some(w.chain.height)
         else b.lastBatchHeight)
  }

  /** The coins of a transaction arrive before the hub runs. */
  function Funded(w: World, info: Info): Chain {
    w.chain.(bank := w.chain.bank + SumOfDenom(info.funds, w.hub.params.stakingCoinDenom))
  }

  /** A transaction with the hub: the handler, then the messages it sent, all or nothing. */
  ghost function Transact(w: World, q: Queries, info: Info, msg: ExecuteMsg): Result<World> {
    var o :- Execute(w.hub, EnvOf(w.chain), q, info, msg);
    Deliver(World(o.ledger, Funded(w, info), Booked(w, q, info, msg, o.ledger)), q, o.messages)
  }

  // ---------------------------------------------------------------- steps

  datatype Step =
    | Tx(q: Queries, info: Info, msg: ExecuteMsg)
    | TokenBurn(q: Queries, amount: nat)
    | NextBlock(passed: nat)
    | Arrive(amount: nat)
    | Donate(amount: nat)
    | LoseUnbonding(amount: nat)
    | Slash(validator: Addr, amount: nat)
    | Move(delegated: map<Addr, nat>)

  /** What the environment may do. Coins may move between validators, as redelegation does, as long
      as what is queued to be taken from a validator stays there. */
  ghost predicate Possible(w: World, step: Step) {
    match step
    case Tx(q, info, _) => Sees(w.chain, w.hub.params.stakingCoinDenom, q, Funded(w, info).bank)
    case TokenBurn(q, _) => Sees(w.chain, w.hub.params.stakingCoinDenom, q, w.chain.bank)
    case NextBlock(_) => true
    case Arrive(amount) => amount <= w.chain.unbonding
    case Donate(_) => true
    case LoseUnbonding(amount) => amount <= w.chain.unbonding
    case Slash(v, amount) => v in w.chain.delegated && amount <= w.chain.delegated[v]
    case Move(delegated) =>
      && SumValues(delegated) == SumValues(w.chain.delegated)
      && (Covered(w.chain.delegated, w.chain.queue) ==> Covered(delegated, w.chain.queue))
  }

  function NewBlock(c: Chain, passed: nat): Chain
    requires c.epochLength > 0 && c.epochOrigin <= c.height
  {
    var after :=
      if Epoch(c.epochOrigin, c.epochLength, c.height + 1) != Epoch(c.epochOrigin, c.epochLength, c.height)
      then Drain(c, c.queue).(queue := [])
      else c;
    after.(height := c.height + 1, nanos := c.nanos + passed)
  }

  /** The world after a step; a failing transaction leaves it as it was. */
  ghost function Next(w: World, step: Step): World
    requires Possible(w, step)
    requires w.chain.epochLength > 0 && w.chain.epochOrigin <= w.chain.height
  {
    match step
    case Tx(q, info, msg) => var r := Transact(w, q, info, msg); if r.Ok? then r.value else w
    case TokenBurn(q, amount) => var r := BurnTokens(w, q, amount); if r.Ok? then r.value else w
    case NextBlock(passed) => w.(chain := NewBlock(w.chain, passed))
    case Arrive(amount) => w.(chain := w.chain.(unbonding := w.chain.unbonding - amount, bank := w.chain.bank + amount))
    case Donate(amount) => w.(chain := w.chain.(bank := w.chain.bank + amount))
    case LoseUnbonding(amount) => w.(chain := w.chain.(unbonding := w.chain.unbonding - amount))
    case Slash(v, amount) =>
      w.(chain := w.chain.(delegated := w.chain.delegated[v := w.chain.delegated[v] - amount]))
    case Move(delegated) => w.(chain := w.chain.(delegated := delegated))
  }

  /** A hub just instantiated on a chain on which it has staked nothing. */
  ghost predicate Start(w: World) {
    && w.chain.epochLength > 0
    && w.chain.epochOrigin <= w.chain.height
    && Instantiate(w.hub.config.owner, w.hub.params, w.chain.epochLength, w.chain.epochOrigin, EnvOf(w.chain))
      == Ok(w.hub)
    && w.chain.supply == 0
    && SumValues(w.chain.delegated) == 0
    && w.chain.queue == []
    && w.books == Books(0, 0, 0, 0, 0, None)
  }

  // ---------------------------------------------------------------- facts about the queue

  lemma {:induction false} QueueAppend(queue: seq<Message>, more: seq<Message>)
    ensures QueuedStake(queue + more) == QueuedStake(queue) + QueuedStake(more)
    ensures QueuedUnstake(queue + more) == QueuedUnstake(queue) + QueuedUnstake(more)
    ensures forall v :: UnstakedFrom(queue + more, v) == UnstakedFrom(queue, v) + UnstakedFrom(more, v)
  {
    if more == [] {
      assert queue + more == queue;
    } else {
      var n := |more| - 1;
      QueueAppend(queue, more[..n]);
      assert (queue + more)[..|queue + more| - 1] == queue + more[..n];
    }
  }

  lemma {:induction false} StakedWithAppend(queue: seq<Message>, more: seq<Message>, v: Addr)
    ensures StakedWith(queue + more, v) == StakedWith(queue, v) + StakedWith(more, v)
  {
    if more == [] {
      assert queue + more == queue;
    } else {
      var n := |more| - 1;
      StakedWithAppend(queue, more[..n], v);
      assert (queue + more)[..|queue + more| - 1] == queue + more[..n];
    }
  }

  /** What is queued to be taken from covered validators is at most what they have together. */
  lemma {:induction false} CoveredTotal(delegated: map<Addr, nat>, queue: seq<Message>)
    requires Covered(delegated, queue)
    ensures QueuedUnstake(queue) <= SumValues(delegated)
    decreases |queue|
  {
    if queue != [] {
      var n := |queue| - 1;
      var last := queue[n];
      if last.Undelegate? {
        var v := last.validator;
        assert UnstakedFrom(queue, v) <= At(delegated, v);
        var less := delegated[v := At(delegated, v) - last.amount];
        forall u ensures UnstakedFrom(queue[..n], u) <= At(less, u) {
          assert UnstakedFrom(queue, u) <= At(delegated, u);
        }
        CoveredTotal(less, queue[..n]);
        SumUpdate(delegated, v, At(delegated, v) - last.amount);
      } else {
        forall u ensures UnstakedFrom(queue[..n], u) <= At(delegated, u) {
          assert UnstakedFrom(queue, u) <= At(delegated, u);
        }
        CoveredTotal(delegated, queue[..n]);
      }
    }
  }

  /** Draining pays every queued delegation out of a bank that holds enough. */
  lemma {:induction false} DrainBank(c: Chain, queue: seq<Message>)
    requires QueuedStake(queue) <= c.bank
    ensures var after := Drain(c, queue);
            after == c.(bank := c.bank - QueuedStake(queue), delegated := after.delegated, unbonding := after.unbonding)
  {
    if queue != [] {
      DrainBank(c, queue[..|queue| - 1]);
    }
  }

  lemma DrainOneTotal(c: Chain, m: Message)
    requires m.Delegate? ==> m.amount <= c.bank
    requires m.Undelegate? ==> m.amount <= At(c.delegated, m.validator)
    ensures var after := DrainOne(c, m);
            && SumValues(after.delegated) == SumValues(c.delegated) + StakedBy(m) - UnstakedBy(m)
            && after.unbonding == c.unbonding + UnstakedBy(m)
            && (forall v :: At(c.delegated, v)
                            <= At(after.delegated, v) + if m.Undelegate? && m.validator == v then m.amount else 0)
  {
    if m.Delegate? {
      SumUpdate(c.delegated, m.validator, At(c.delegated, m.validator) + m.amount);
    } else if m.Undelegate? {
      SumUpdate(c.delegated, m.validator, At(c.delegated, m.validator) - m.amount);
    }
  }

  /** Draining a covered queue carries out every message. */
  lemma {:induction false} DrainCovered(c: Chain, queue: seq<Message>)
    requires QueuedStake(queue) <= c.bank && Covered(c.delegated, queue)
    ensures var after := Drain(c, queue);
            && SumValues(after.delegated) == SumValues(c.delegated) + QueuedStake(queue) - QueuedUnstake(queue)
            && after.unbonding == c.unbonding + QueuedUnstake(queue)
            && (forall v :: At(c.delegated, v) <= At(after.delegated, v) + UnstakedFrom(queue, v))
  {
    if queue != [] {
      var n := |queue| - 1;
      var last := queue[n];
      forall u ensures UnstakedFrom(queue[..n], u) <= At(c.delegated, u) {
        assert UnstakedFrom(queue, u) <= At(c.delegated, u);
      }
      DrainBank(c, queue[..n]);
      DrainCovered(c, queue[..n]);
      var mid := Drain(c, queue[..n]);
      if last.Undelegate? {
        var v := last.validator;
        assert UnstakedFrom(queue, v) <= At(c.delegated, v) <= At(mid.delegated, v) + UnstakedFrom(queue[..n], v);
      }
      hide DrainOne;
      DrainOneTotal(mid, last);
    }
  }

  /** The messages of a delegation add up to its parts, and take nothing. */
  lemma {:induction false} DelegateMessagesTotal(validators: seq<ValidatorResponse>, parts: seq<nat>)
    requires |validators| == |parts|
    ensures var messages := DelegateMessages(validators, parts);
            && QueuedStake(messages) == Sum(parts) && QueuedUnstake(messages) == 0
            && (forall v :: UnstakedFrom(messages, v) == 0)
            && (forall m | m in messages :: m.Delegate?)
    decreases |parts|
  {
    if parts != [] {
      var n := |parts| - 1;
      DelegateMessagesTotal(validators[..n], parts[..n]);
      var head := DelegateMessages(validators[..n], parts[..n]);
      var last := if parts[n] == 0 then [] else [Delegate(validators[n].address, parts[n])];
      QueueAppend(head, last);
      if parts[n] > 0 {
        assert last[..0] == [];
      }
    }
  }

  /** The messages of an undelegation add up to its parts. */
  lemma {:induction false} UndelegateMessagesTotal(validators: seq<ValidatorResponse>, parts: seq<nat>)
    requires |validators| == |parts|
    ensures var messages := UndelegateMessages(validators, parts);
            && QueuedUnstake(messages) == Sum(parts) && QueuedStake(messages) == 0
            && (forall m | m in messages :: m.Undelegate?)
    decreases |parts|
  {
    if parts != [] {
      var n := |parts| - 1;
      UndelegateMessagesTotal(validators[..n], parts[..n]);
      var last := if parts[n] == 0 then [] else [Undelegate(validators[n].address, parts[n])];
      QueueAppend(UndelegateMessages(validators[..n], parts[..n]), last);
      if parts[n] > 0 {
        assert last[..0] == [];
      }
    }
  }

  /** They take from each validator its part, and no more than it has. */
  lemma {:induction false} UndelegateMessagesCovered(validators: seq<ValidatorResponse>, parts: seq<nat>,
                                                     delegated: map<Addr, nat>)
    requires |validators| == |parts|
    requires forall i | 0 <= i < |parts|
             :: parts[i] <= validators[i].totalDelegated == At(delegated, validators[i].address)
    requires forall i, j | 0 <= i < j < |parts| :: validators[i].address != validators[j].address
    ensures Covered(delegated, UndelegateMessages(validators, parts))
    ensures forall v :: (forall i | 0 <= i < |parts| :: validators[i].address != v) ==>
                          UnstakedFrom(UndelegateMessages(validators, parts), v) == 0
    decreases |parts|
  {
    if parts != [] {
      var n := |parts| - 1;
      UndelegateMessagesCovered(validators[..n], parts[..n], delegated);
      var head := UndelegateMessages(validators[..n], parts[..n]);
      var last := if parts[n] == 0 then [] else [Undelegate(validators[n].address, parts[n])];
      QueueAppend(head, last);
      if parts[n] > 0 {
        assert last[..0] == [];
      }
      var messages := UndelegateMessages(validators, parts);
      assert messages == head + last;
      forall v ensures UnstakedFrom(messages, v) <= At(delegated, v) {
        assert UnstakedFrom(head, v) <= At(delegated, v);
        if v == validators[n].address {
          assert forall i | 0 <= i < n :: validators[..n][i].address != v;
        }
      }
      forall v | forall i | 0 <= i < |parts| :: validators[i].address != v
        ensures UnstakedFrom(messages, v) == 0
      {
        assert validators[n].address != v;
        assert forall i | 0 <= i < n :: validators[..n][i].address != v;
      }
    }
  }
}
