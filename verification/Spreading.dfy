/** Which validator gets which part: from the allocators' parts to the messages, and through the end of the staking
    epoch to the chain (contracts/lst_staking_hub/src/stake.rs, prepare_delegate_messages;
    contracts/lst_staking_hub/src/unstake.rs, pick_validator_for_undelegation). */
module Spreading {
  import opened Wrappers
  import opened FixedPoint
  import opened Delegation
  import opened PendingEpoch
  import opened HubTypes
  import opened Claims
  import opened Release
  import opened Handlers
  import opened Slashing
  import opened World
  import opened Batches
  import opened Runs
  import opened Reachable
  import opened SlashFreeRuns
  import opened CalmRuns

  // ---------------------------------------------------------------- the messages

  /** Each validator is staked with its own part, and no other with anything. */
  lemma {:induction false} DelegateMessagesExact(validators: seq<ValidatorResponse>, parts: seq<nat>)
    requires |validators| == |parts| && EachOnce(validators)
    ensures forall i | 0 <= i < |parts| ::
              StakedWith(DelegateMessages(validators, parts), validators[i].address) == parts[i]
    ensures forall v | Unlisted(validators, v) :: StakedWith(DelegateMessages(validators, parts), v) == 0
    decreases |parts|
  {
    if parts != [] {
      var n := |parts| - 1;
      var head := DelegateMessages(validators[..n], parts[..n]);
      var last := if parts[n] == 0 then [] else [Delegate(validators[n].address, parts[n])];
      DelegateMessagesExact(validators[..n], parts[..n]);
      assert DelegateMessages(validators, parts) == head + last;
      assert Unlisted(validators[..n], validators[n].address);
      assert parts[n] > 0 ==> last[..0] == [];
      hide DelegateMessages;
      forall i | 0 <= i < |parts| ensures StakedWith(head + last, validators[i].address) == parts[i] {
        StakedWithAppend(head, last, validators[i].address);
        if i < n {
          assert validators[..n][i].address == validators[i].address;
        }
      }
      forall v | Unlisted(validators, v) ensures StakedWith(head + last, v) == 0 {
        StakedWithAppend(head, last, v);
        assert Unlisted(validators[..n], v);
      }
    }
  }

  /** From each validator its own part is taken, and from no other anything. */
  lemma {:induction false} UndelegateMessagesExact(validators: seq<ValidatorResponse>, parts: seq<nat>)
    requires |validators| == |parts| && EachOnce(validators)
    ensures forall i | 0 <= i < |parts| ::
              UnstakedFrom(UndelegateMessages(validators, parts), validators[i].address) == parts[i]
    ensures forall v | Unlisted(validators, v) :: UnstakedFrom(UndelegateMessages(validators, parts), v) == 0
    ensures forall v :: StakedWith(UndelegateMessages(validators, parts), v) == 0
    decreases |parts|
  {
    if parts != [] {
      var n := |parts| - 1;
      var head := UndelegateMessages(validators[..n], parts[..n]);
      var last := if parts[n] == 0 then [] else [Undelegate(validators[n].address, parts[n])];
      UndelegateMessagesExact(validators[..n], parts[..n]);
      assert UndelegateMessages(validators, parts) == head + last;
      assert Unlisted(validators[..n], validators[n].address);
      assert parts[n] > 0 ==> last[..0] == [];
      QueueAppend(head, last);
      hide UndelegateMessages;
      forall i | 0 <= i < |parts| ensures UnstakedFrom(head + last, validators[i].address) == parts[i] {
        if i < n {
          assert validators[..n][i].address == validators[i].address;
        }
      }
      forall v | Unlisted(validators, v) ensures UnstakedFrom(head + last, v) == 0 {
        assert Unlisted(validators[..n], v);
      }
      forall v ensures StakedWith(head + last, v) == 0 {
        StakedWithAppend(head, last, v);
      }
    }
  }

  // ---------------------------------------------------------------- the end of a staking epoch

  lemma DrainOneExact(c: Chain, m: Message, v: Addr)
    requires m.Delegate? ==> m.amount <= c.bank
    requires m.Undelegate? ==> m.amount <= At(c.delegated, m.validator)
    ensures At(DrainOne(c, m).delegated, v) + (if m.Undelegate? && m.validator == v then m.amount else 0)
         == At(c.delegated, v) + if m.Delegate? && m.validator == v then m.amount else 0
  {
  }

  /** Draining a covered queue changes each validator's delegation by exactly what the queue stakes with it and
      takes from it. */
  lemma {:induction false} DrainExact(c: Chain, queue: seq<Message>, v: Addr)
    requires QueuedStake(queue) <= c.bank && Covered(c.delegated, queue)
    ensures At(Drain(c, queue).delegated, v) + UnstakedFrom(queue, v) == At(c.delegated, v) + StakedWith(queue, v)
  {
    if queue != [] {
      var n := |queue| - 1;
      var last := queue[n];
      forall u ensures UnstakedFrom(queue[..n], u) <= At(c.delegated, u) {
        assert UnstakedFrom(queue, u) <= At(c.delegated, u);
      }
      DrainBank(c, queue[..n]);
      DrainExact(c, queue[..n], v);
      if last.Undelegate? {
        DrainExact(c, queue[..n], last.validator);
        assert UnstakedFrom(queue, last.validator) <= At(c.delegated, last.validator);
      }
      hide DrainOne;
      DrainOneExact(Drain(c, queue[..n]), last, v);
    }
  }

  lemma {:induction false} DrainTogether(c: Chain, queue: seq<Message>, more: seq<Message>)
    ensures Drain(c, queue + more) == Drain(Drain(c, queue), more)
  {
    if more == [] {
      assert queue + more == queue;
    } else {
      var n := |more| - 1;
      DrainTogether(c, queue, more[..n]);
      assert (queue + more)[..|queue + more| - 1] == queue + more[..n];
    }
  }

  /** With enough coins for the queue, what is drained to the validators does not depend on how many more there
      are. */
  lemma {:induction false} DrainReadsDelegated(c: Chain, d: Chain, queue: seq<Message>)
    requires c.delegated == d.delegated && QueuedStake(queue) <= c.bank && QueuedStake(queue) <= d.bank
    ensures Drain(c, queue).delegated == Drain(d, queue).delegated
  {
    if queue != [] {
      var n := |queue| - 1;
      DrainReadsDelegated(c, d, queue[..n]);
      DrainBank(c, queue[..n]);
      DrainBank(d, queue[..n]);
    }
  }

  /** What the validators have once the queue is carried out. */
  ghost function Settled(c: Chain): map<Addr, nat> { Drain(c, c.queue).delegated }

  // ---------------------------------------------------------------- stakes

  /** At the end of the staking epoch, the validators have what they would have had without the stake, and each
      its own part of the payment on top, whatever else is queued. */
  lemma StakeReachesEach(w: World, q: Queries, info: Info, msg: ExecuteMsg) returns (parts: seq<nat>)
    requires Sound(w) && Possible(w, Tx(q, info, msg))
    requires msg.Stake? || msg.StakeRewards?
    requires Transact(w, q, info, msg).Ok?
    ensures Delegations(SumOfDenom(info.funds, w.hub.params.stakingCoinDenom), Totals(q.validators)) == Ok(parts)
    ensures |parts| == |q.validators|
    ensures var before, after := Settled(w.chain), Settled(Transact(w, q, info, msg).value.chain);
            && (forall i | 0 <= i < |parts| ::
                  At(after, q.validators[i].address) == At(before, q.validators[i].address) + parts[i])
            && (forall v | Unlisted(q.validators, v) :: At(after, v) == At(before, v))
  {
    hide Transact, Delegations, DelegateMessages, Totals, SumOfDenom, Drain, SoundFor, StakedWith, UpdatePending,
         CheckedState, MintAmount, Booked, UnstakedFrom;
    var queued, payment;
    parts, queued, payment := StakeQueues(w, q, info, msg);
    BankCovers(w, Tokens(w));
    SeesEachOnce(w, q, info, msg);
    DelegateMessagesExact(q.validators, parts);
    DrainAppended(w.chain, Transact(w, q, info, msg).value.chain, queued);
  }

  lemma BankCovers(w: World, tokens: nat)
    requires SoundFor(w, tokens)
    ensures QueuedStake(w.chain.queue) <= w.chain.bank
  {
    hide Structured, Solvent, Tracks, RateCovered, Unreleased;
  }

  lemma SeesEachOnce(w: World, q: Queries, info: Info, msg: ExecuteMsg)
    requires Possible(w, Tx(q, info, msg))
    ensures EachOnce(q.validators)
  {
  }

  /** What a stake queues, and on how many coins. */
  lemma StakeQueues(w: World, q: Queries, info: Info, msg: ExecuteMsg)
    returns (parts: seq<nat>, queued: seq<Message>, payment: nat)
    requires msg.Stake? || msg.StakeRewards?
    requires Transact(w, q, info, msg).Ok?
    ensures payment == SumOfDenom(info.funds, w.hub.params.stakingCoinDenom)
    ensures Delegations(payment, Totals(q.validators)) == Ok(parts) && |parts| == |q.validators|
    ensures queued == DelegateMessages(q.validators, parts)
    ensures QueuedStake(queued) == payment && QueuedUnstake(queued) == 0
    ensures forall v :: UnstakedFrom(queued, v) == 0
    ensures forall m | m in queued :: m.Delegate?
    ensures var c := Transact(w, q, info, msg).value.chain;
            c == w.chain.(bank := w.chain.bank + payment, supply := c.supply, queue := w.chain.queue + queued)
  {
    hide Staked, CheckedState, Booked, UpdatePending, BurnTokens, Delegations, DelegateMessages, Totals, FromRatio,
         QueuedStake, QueuedUnstake, UnstakedFrom, DecimalDivision, SumOfDenom;
    StakeIsExecuted(w.hub, EnvOf(w.chain), q, info, msg);
    hide Execute;
    var o, st, paid, minted, delegated := StakeEffect(w.hub, EnvOf(w.chain), q, info, KindOf(msg));
    payment, queued, parts := paid, delegated, Delegations(paid, Totals(q.validators)).value;
    var mid := World(o.ledger, Funded(w, info), Booked(w, q, info, msg, o.ledger));
    assert Transact(w, q, info, msg) == Deliver(mid, q, o.messages);
    hide Transact;
    if msg.Stake? {
      DeliverThen(mid, q, queued, Mint(info.sender, minted));
    } else {
      assert o.messages == queued;
      DeliverQueued(mid, q, queued);
    }
  }

  /** Delegations queued last are carried out on top of what is queued before. */
  lemma DrainAppended(c: Chain, d: Chain, queued: seq<Message>)
    requires QueuedStake(c.queue) <= c.bank && QueuedUnstake(queued) == 0
    requires d == c.(bank := c.bank + QueuedStake(queued), supply := d.supply, queue := c.queue + queued)
    requires forall v :: UnstakedFrom(queued, v) == 0
    ensures forall v :: At(Settled(d), v) == At(Settled(c), v) + StakedWith(queued, v)
  {
    DrainTogether(d, c.queue, queued);
    DrainBank(d, c.queue);
    DrainReadsDelegated(c, d, c.queue);
    forall v ensures At(Settled(d), v) == At(Settled(c), v) + StakedWith(queued, v) {
      DrainExact(Drain(d, c.queue), queued, v);
    }
  }

  // ---------------------------------------------------------------- batches

  lemma QueuedTakesFromEach(w: World, after: World, q: Queries, parts: seq<nat>, messages: seq<Message>)
    requires Calm(w) && Calm(after) && EachOnce(q.validators) && |parts| == |q.validators|
    requires messages == UndelegateMessages(q.validators, parts)
    requires after.chain.delegated == w.chain.delegated && after.chain.queue == w.chain.queue + messages
    ensures var before, later := Settled(w.chain), Settled(after.chain);
            && (forall i | 0 <= i < |parts| ::
                  At(later, q.validators[i].address) + parts[i] == At(before, q.validators[i].address))
            && (forall v | Unlisted(q.validators, v) :: At(later, v) == At(before, v))
  {
    hide SoundFor, SlashFreeFor, Drain, UndelegateMessages, StakedWith, UnstakedFrom;
    BankCovers(w, Tokens(w));
    BankCovers(after, Tokens(after));
    UndelegateMessagesExact(q.validators, parts);
    QueueAppend(w.chain.queue, messages);
    forall v ensures At(Settled(after.chain), v) + UnstakedFrom(messages, v) == At(Settled(w.chain), v) {
      StakedWithAppend(w.chain.queue, messages, v);
      DrainExact(w.chain, w.chain.queue, v);
      DrainExact(after.chain, after.chain.queue, v);
    }
  }

  /** What an undelegated batch queues. */
  lemma BatchQueues(w: World, stored: CurrentBatch, q: Queries, o: Outcome) returns (parts: seq<nat>)
    requires BatchEpochChecked(w.hub.(currentBatch := stored), w.hub.currentBatch, EnvOf(w.chain), q) == Ok(o)
    requires o.ledger.currentBatch.id != w.hub.currentBatch.id
    ensures w.hub.currentBatch.id in o.ledger.history
    ensures Undelegations(Cost(o.ledger.history[w.hub.currentBatch.id]), Totals(q.validators)) == Ok(parts)
    ensures |parts| == |q.validators| && o.messages == UndelegateMessages(q.validators, parts)
  {
    hide CheckedState, BatchEpochChecked, BatchProcessed, UpdatePending, DecimalMultiplication, Undelegations;
    var l, batch, env := w.hub.(currentBatch := stored), w.hub.currentBatch, EnvOf(w.chain);
    var o1, st := BatchEpochEffect(l, batch, env, q);
    var o2, unstaked := BatchProcessedEffect(l.(state := st), batch, env, q);
    parts := Undelegations(unstaked, Totals(q.validators)).value;
  }

  /** In a calm world, when an unstake or a processing of undelegations undelegates the batch: at the end of the
      staking epoch the validators have what they would have had without it, less each its own part of what
      the batch's release will cost. */
  lemma BatchTakesFromEach(w: World, q: Queries, info: Info, msg: ExecuteMsg) returns (parts: seq<nat>)
    requires Calm(w) && Possible(w, Tx(q, info, msg)) && (IsUnstake(msg) || msg.ProcessUndelegations?)
    requires Transact(w, q, info, msg).Ok?
    requires Transact(w, q, info, msg).value.hub.currentBatch.id != w.hub.currentBatch.id
    ensures w.hub.currentBatch.id in Transact(w, q, info, msg).value.hub.history
    ensures Undelegations(Cost(Transact(w, q, info, msg).value.hub.history[w.hub.currentBatch.id]),
                          Totals(q.validators)) == Ok(parts)
    ensures |parts| == |q.validators|
    ensures var before, later := Settled(w.chain), Settled(Transact(w, q, info, msg).value.chain);
            && (forall i | 0 <= i < |parts| ::
                  At(later, q.validators[i].address) + parts[i] == At(before, q.validators[i].address))
            && (forall v | Unlisted(q.validators, v) :: At(later, v) == At(before, v))
  {
    hide Transact, SoundFor, SlashFreeFor, OnPace, BatchEpochChecked, BurnTokens, Recorded, Sees, Settled,
         Undelegations, UndelegateMessages, Totals, Cost, EachOnce, Unlisted;
    var after := Transact(w, q, info, msg).value;
    SeesEachOnce(w, q, info, msg);
    CalmAfter(w, q, info, msg);
    var o;
    if IsUnstake(msg) {
      var mid, tokens;
      o, mid, tokens := UnstakeBeforeBurn(w, q, info, msg);
      BurnFollows(mid, q, UnstakeAmount(msg));
      parts := BatchQueues(RecordedWorld(w, info, msg), w.hub.currentBatch, q, o);
    } else if w.hub.currentBatch.requestedLstTokenAmount == 0 {
      NothingUndelegated(w, q, info, msg);
      assert false;
    } else {
      var processed;
      o, processed := UndelegationsBooks(w, q, info, msg);
      parts := BatchQueues(w, w.hub.currentBatch, q, o);
    }
    QueuedTakesFromEach(w, after, q, parts, o.messages);
  }

  lemma CalmAfter(w: World, q: Queries, info: Info, msg: ExecuteMsg)
    requires Calm(w) && Possible(w, Tx(q, info, msg)) && (IsUnstake(msg) || msg.ProcessUndelegations?)
    requires Transact(w, q, info, msg).Ok?
    ensures Calm(Transact(w, q, info, msg).value)
  {
    hide Transact, Possible, SoundFor, SlashFreeFor;
    StepKeepsCalm(w, Tx(q, info, msg));
  }
}
