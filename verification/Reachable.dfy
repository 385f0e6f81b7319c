/** Every step keeps the invariant of `Runs`, so it holds in every state of every run. */
module Reachable {
  import opened Wrappers
  import opened PendingEpoch
  import opened HubTypes
  import opened Claims
  import opened Release
  import opened Handlers
  import opened Slashing
  import opened World
  import opened Batches
  import opened Runs

  /** The world in which the handler runs: the sent coins have arrived. */
  ghost function Arrived(w: World, info: Info): World { w.(chain := Funded(w, info)) }

  lemma ArrivedIsSound(w: World, info: Info)
    requires Sound(w)
    ensures Sound(Arrived(w, info))
  {
    TracksIgnoresCoins(w.hub.pending, w.chain, Funded(w, info));
    hide Structured, Solvent, Tracks, RateCovered, Unreleased;
  }

  // ---------------------------------------------------------------- unstaking

  ghost predicate IsUnstake(msg: ExecuteMsg) { msg.Unstake? || msg.ReceiveUnstake? }

  function UnstakeAmount(msg: ExecuteMsg): nat
    requires msg.Unstake? || msg.ReceiveUnstake?
  {
    msg.amount
  }

  function UnstakeUser(info: Info, msg: ExecuteMsg): Addr {
    if msg.ReceiveUnstake? then msg.sender else info.sender
  }

  /** The ledger with the request in the wait list, and the batch in memory with its tokens. */
  function RecordedLedger(l: Ledger, user: Addr, amount: nat): Ledger {
    l.(waitList := Recorded(l.waitList, user, l.currentBatch.id, amount))
  }

  function RecordedBatch(l: Ledger, amount: nat): CurrentBatch {
    l.currentBatch.(requestedLstTokenAmount := l.currentBatch.requestedLstTokenAmount + amount)
  }

  lemma UnstakeIsExecuted(l: Ledger, env: Env, q: Queries, info: Info, msg: ExecuteMsg)
    returns (o: Outcome, burn: Message)
    requires IsUnstake(msg)
    requires Execute(l, env, q, info, msg).Ok?
    ensures BatchEpochChecked(RecordedLedger(l, UnstakeUser(info, msg), UnstakeAmount(msg)),
                              RecordedBatch(l, UnstakeAmount(msg)), env, q) == Ok(o)
    ensures burn == if msg.Unstake? then BurnFrom(info.sender, UnstakeAmount(msg)) else Burn(UnstakeAmount(msg))
    ensures Execute(l, env, q, info, msg) == Ok(Outcome(o.ledger, o.messages + [burn]))
  {
    hide BatchEpochChecked, Recorded;
    o := BatchEpochChecked(RecordedLedger(l, UnstakeUser(info, msg), UnstakeAmount(msg)),
                           RecordedBatch(l, UnstakeAmount(msg)), env, q).value;
    burn := if msg.Unstake? then BurnFrom(info.sender, msg.amount) else Burn(msg.amount);
  }

  /** An unstake is the epoch check on the recorded request, its messages queued, and then the burn. */
  lemma UnstakeTransaction(w: World, q: Queries, info: Info, msg: ExecuteMsg) returns (o: Outcome, mid: World)
    requires IsUnstake(msg)
    requires Transact(w, q, info, msg).Ok?
    requires forall o | BatchEpochChecked(RecordedLedger(w.hub, UnstakeUser(info, msg), UnstakeAmount(msg)),
                                          RecordedBatch(w.hub, UnstakeAmount(msg)), EnvOf(w.chain), q) == Ok(o) ::
               forall m | m in o.messages :: m.Undelegate?
    ensures BatchEpochChecked(RecordedLedger(w.hub, UnstakeUser(info, msg), UnstakeAmount(msg)),
                              RecordedBatch(w.hub, UnstakeAmount(msg)), EnvOf(w.chain), q) == Ok(o)
    ensures mid == World(o.ledger, Funded(w, info).(queue := w.chain.queue + o.messages),
                         Booked(w, q, info, msg, o.ledger))
    ensures Transact(w, q, info, msg) == BurnTokens(mid, q, UnstakeAmount(msg))
  {
    hide BatchEpochChecked, RecordedLedger, Booked, BurnTokens;
    var burn;
    o, burn := UnstakeIsExecuted(w.hub, EnvOf(w.chain), q, info, msg);
    mid := BurnComesLast(w, q, info, msg, o, burn);
  }

  /** The burn is delivered to a world in which the other messages are queued. */
  lemma BurnComesLast(w: World, q: Queries, info: Info, msg: ExecuteMsg, o: Outcome, burn: Message)
    returns (mid: World)
    requires Execute(w.hub, EnvOf(w.chain), q, info, msg) == Ok(Outcome(o.ledger, o.messages + [burn]))
    requires burn.Burn? || burn.BurnFrom?
    requires forall m | m in o.messages :: m.Undelegate?
    ensures mid == World(o.ledger, Funded(w, info).(queue := w.chain.queue + o.messages),
                         Booked(w, q, info, msg, o.ledger))
    ensures Transact(w, q, info, msg) == BurnTokens(mid, q, burn.burnt)
  {
    hide Execute, Booked, BurnTokens;
    var start := World(o.ledger, Funded(w, info), Booked(w, q, info, msg, o.ledger));
    assert Transact(w, q, info, msg) == Deliver(start, q, o.messages + [burn]);
    hide Transact;
    DeliverThen(start, q, o.messages, burn);
    mid := start.(chain := start.chain.(queue := w.chain.queue + o.messages));
  }

  lemma UndelegatesOnly(l: Ledger, batch: CurrentBatch, env: Env, q: Queries)
    requires BatchEpochChecked(l, batch, env, q).Ok?
    ensures forall m | m in BatchEpochChecked(l, batch, env, q).value.messages :: m.Undelegate?
  {
    hide BatchEpochChecked, BatchProcessed;
    var o, st := BatchEpochEffect(l, batch, env, q);
    if env.time - st.lastUnbondedTime > l.params.epochLength {
      var o1, unstaked := BatchProcessedEffect(l.(state := st), batch, env, q);
    }
  }

  lemma UnstakeKeepsSound(w: World, q: Queries, info: Info, msg: ExecuteMsg)
    requires Sound(w) && Possible(w, Tx(q, info, msg))
    requires IsUnstake(msg)
    requires Transact(w, q, info, msg).Ok?
    ensures Sound(Transact(w, q, info, msg).value)
  {
    hide Transact, BatchEpochChecked, SoundFor, BurnTokens, Recorded, ActualState;
    var l := w.hub;
    var user, amount := UnstakeUser(info, msg), UnstakeAmount(msg);
    if BatchEpochChecked(RecordedLedger(l, user, amount), RecordedBatch(l, amount), EnvOf(w.chain), q).Ok? {
      UndelegatesOnly(RecordedLedger(l, user, amount), RecordedBatch(l, amount), EnvOf(w.chain), q);
    }
    var o, mid := UnstakeTransaction(w, q, info, msg);
    BurnNeedsSupply(mid, q, amount);
    ArrivedIsSound(w, info);
    var recorded := RecordKeepsSound(Arrived(w, info), user, amount);
    var o1, after := EpochKeepsSound(recorded, l.currentBatch, q, Tokens(w));
    UnstakeBooks(w, q, info, msg, o.ledger);
    SoundIgnoresBatchHeight(after, mid, Tokens(w) - recorded.hub.currentBatch.requestedLstTokenAmount
                                         + o.ledger.currentBatch.requestedLstTokenAmount);
    BurnKeepsSound(mid, q, amount, w.chain.supply - amount + o.ledger.currentBatch.requestedLstTokenAmount);
  }

  lemma BurnNeedsSupply(w: World, q: Queries, amount: nat)
    requires BurnTokens(w, q, amount).Ok?
    ensures amount <= w.chain.supply
  {
  }

  /** The invariant does not read where the last batch was undelegated. */
  lemma SoundIgnoresBatchHeight(w: World, u: World, tokens: nat)
    requires SoundFor(w, tokens)
    requires u == w.(books := w.books.(lastBatchHeight := u.books.lastBatchHeight))
    ensures SoundFor(u, tokens)
  {
    hide Structured, Solvent, Tracks, RateCovered, Unreleased;
  }

  lemma UnstakeBooks(w: World, q: Queries, info: Info, msg: ExecuteMsg, after: Ledger)
    requires IsUnstake(msg) || (msg.ProcessUndelegations? && w.hub.currentBatch.requestedLstTokenAmount > 0)
             || msg.CheckSlashing?
    requires after.state.lastProcessedBatch == w.hub.state.lastProcessedBatch
    ensures Booked(w, q, info, msg, after)
         == w.books.(writtenOff := w.books.writtenOff + LoweredByCheck(w.hub, EnvOf(w.chain), q),
                     lastBatchHeight := if after.currentBatch.id != w.hub.currentBatch.id then Some(w.chain.height)
                                        else w.books.lastBatchHeight)
  {
    hide LoweredByCheck;
  }

  // ---------------------------------------------------------------- other checks

  lemma UndelegationsKeepSound(w: World, q: Queries, info: Info, msg: ExecuteMsg)
    requires Sound(w) && Possible(w, Tx(q, info, msg))
    requires msg.ProcessUndelegations?
    requires Transact(w, q, info, msg).Ok?
    ensures Sound(Transact(w, q, info, msg).value)
  {
    hide BatchEpochChecked, SoundFor, ActualState, BurnTokens;
    var l := w.hub;
    ArrivedIsSound(w, info);
    if l.currentBatch.requestedLstTokenAmount == 0 {
      UnchangedBooks(w, q, info, msg, l);
    } else {
      var o, after := EpochKeepsSound(Arrived(w, info), l.currentBatch, q, Tokens(w));
      UnstakeBooks(w, q, info, msg, o.ledger);
      DeliverQueued(World(o.ledger, Funded(w, info), Booked(w, q, info, msg, o.ledger)), q, o.messages);
      SoundIgnoresBatchHeight(after, Transact(w, q, info, msg).value,
                              Tokens(w) - l.currentBatch.requestedLstTokenAmount
                                + o.ledger.currentBatch.requestedLstTokenAmount);
    }
  }

  lemma UnchangedBooks(w: World, q: Queries, info: Info, msg: ExecuteMsg, after: Ledger)
    requires IsSetting(msg) || (msg.ProcessUndelegations? && w.hub.currentBatch.requestedLstTokenAmount == 0)
    requires after.state.lastProcessedBatch == w.hub.state.lastProcessedBatch
    requires after.currentBatch == w.hub.currentBatch
    ensures Booked(w, q, info, msg, after) == w.books
  {
    hide LoweredByCheck;
  }

  lemma CheckSlashingKeepsSound(w: World, q: Queries, info: Info, msg: ExecuteMsg)
    requires Sound(w) && Possible(w, Tx(q, info, msg))
    requires msg.CheckSlashing?
    requires Transact(w, q, info, msg).Ok?
    ensures Sound(Transact(w, q, info, msg).value)
  {
    hide ActualState, Structured, Solvent, Tracks, RateCovered, Unreleased, Booked;
    var l := w.hub;
    CheckKeepsRateBound(l.state, l.params.stakingCoinDenom, l.currentBatch.requestedLstTokenAmount, l.pending,
                        EnvOf(w.chain), q);
    UnstakeBooks(w, q, info, msg, SlashingChecked(l, EnvOf(w.chain), q).value);
    ArrivedIsSound(w, info);
  }

  /** The messages that only set what the ledger's accounts do not read. */
  ghost predicate IsSetting(msg: ExecuteMsg) {
    msg.UpdateParams? || msg.UpdateConfig? || msg.RedelegateProxy? || msg.UpdateGlobalIndex?
  }

  lemma SettingIsExecuted(l: Ledger, env: Env, q: Queries, info: Info, msg: ExecuteMsg) returns (o: Outcome)
    requires IsSetting(msg)
    requires Execute(l, env, q, info, msg).Ok?
    ensures Execute(l, env, q, info, msg) == Ok(o)
    ensures o.ledger == l.(config := o.ledger.config, params := o.ledger.params,
                           state := l.state.(lastIndexModification := o.ledger.state.lastIndexModification))
    ensures l.config.lstToken.Some? ==> o.ledger.config.lstToken.Some?
    ensures forall m | m in o.messages :: IsPlain(m)
    ensures if msg.UpdateParams?
            then UpdatedParams(l.params, msg.pause, msg.epochLength, msg.unstakingPeriod) == Ok(o.ledger.params)
            else o.ledger.params == l.params
  {
    hide UpdatedParams;
    o := Execute(l, env, q, info, msg).value;
  }

  /** The world after a setting: the same accounts, with the coins sent in the bank. */
  lemma SettingTransaction(w: World, q: Queries, info: Info, msg: ExecuteMsg) returns (after: World)
    requires IsSetting(msg)
    requires Transact(w, q, info, msg).Ok?
    ensures Transact(w, q, info, msg) == Ok(after)
    ensures after.hub == w.hub.(config := after.hub.config, params := after.hub.params,
                                state := w.hub.state.(lastIndexModification := after.hub.state.lastIndexModification))
    ensures w.hub.config.lstToken.Some? ==> after.hub.config.lstToken.Some?
    ensures after.chain == Funded(w, info) && after.books == w.books
    ensures if msg.UpdateParams?
            then UpdatedParams(w.hub.params, msg.pause, msg.epochLength, msg.unstakingPeriod) == Ok(after.hub.params)
            else after.hub.params == w.hub.params
  {
    hide UpdatedParams, Booked;
    var o := SettingIsExecuted(w.hub, EnvOf(w.chain), q, info, msg);
    hide Execute;
    UnchangedBooks(w, q, info, msg, o.ledger);
    after := World(o.ledger, Funded(w, info), w.books);
    DeliverPlain(after, q, o.messages);
  }

  lemma SettingKeepsSound(w: World, q: Queries, info: Info, msg: ExecuteMsg)
    requires Sound(w)
    requires IsSetting(msg)
    requires Transact(w, q, info, msg).Ok?
    ensures Sound(Transact(w, q, info, msg).value)
  {
    hide Structured, Solvent, Tracks, RateCovered, Unreleased, Transact, UpdatedParams;
    ArrivedIsSound(w, info);
    var after := SettingTransaction(w, q, info, msg);
  }

  // ---------------------------------------------------------------- releasing

  /** The ledger after a release, with what it costs set aside. */
  ghost function ReleasedLedger(l: Ledger, last: nat): Ledger {
    l.(history := MarkReleased(l.history, l.state.lastProcessedBatch, last),
       state := l.state.(lastProcessedBatch := last,
                         unclaimedUnstakedBalance :=
                           l.state.unclaimedUnstakedBalance + CostUpTo(l.history, l.state.lastProcessedBatch, last)))
  }

  /** In a sound world the balance is enough for what is queued and set aside: the subtractions at
      the head of both withdraw paths succeed, and the release sets aside exactly what it costs. */
  lemma ReleaseEffect(w: World, q: Queries, cutoff: nat) returns (last: nat, left: nat)
    requires Sound(w) && q.balance == w.chain.bank
    ensures FreeBalance(w.hub, EnvOf(w.chain), q) == Ok(w.chain.bank - QueuedStake(w.chain.queue))
    ensures var free := w.chain.bank - QueuedStake(w.chain.queue);
            var l := w.hub;
            var released := ReleasedLedger(l, last);
            && WithdrawRateProcessed(l, cutoff, free)
               == Ok((released.(state := released.state.(
                                   unclaimedUnstakedBalance := l.state.unclaimedUnstakedBalance)), left))
            && Affordable(l.history, l.state.lastProcessedBatch, last, cutoff, free - l.state.unclaimedUnstakedBalance)
            && last >= l.state.lastProcessedBatch
            && left == free - released.state.unclaimedUnstakedBalance
            && last == ReleasePass(l.history, l.state.lastProcessedBatch + 1, cutoff,
                                   free - l.state.unclaimedUnstakedBalance).0
  {
    hide Structured, Solvent, RateCovered, Unreleased, StartsEpoch, Cost;
    var l := w.hub;
    var unstaked := w.chain.bank - QueuedStake(w.chain.queue) - l.state.unclaimedUnstakedBalance;
    last, left := ReleasePass(l.history, l.state.lastProcessedBatch + 1, cutoff, unstaked).0,
                  ReleasePass(l.history, l.state.lastProcessedBatch + 1, cutoff, unstaked).1;
    PassReleasesLongestPrefix(l.history, l.state.lastProcessedBatch, cutoff, unstaked);
  }

  lemma ReleaseIsSound(w: World, last: nat, cutoff: nat) returns (after: World)
    requires Sound(w)
    requires w.hub.state.lastProcessedBatch <= last
    requires Affordable(w.hub.history, w.hub.state.lastProcessedBatch, last, cutoff,
                        w.chain.bank - QueuedStake(w.chain.queue) - w.hub.state.unclaimedUnstakedBalance)
    ensures after == w.(hub := ReleasedLedger(w.hub, last),
                        books := w.books.(dust := w.books.dust
                                   + ReleaseDust(w.hub.waitList, w.hub.state.lastProcessedBatch, last)))
    ensures Sound(after)
  {
    hide Affordable, Releasable, Structured, Tracks, RateCovered, CostUpTo, TotalClaims, MarkReleased, ReleaseDust;
    var l := w.hub;
    var first := l.state.lastProcessedBatch;
    AffordableIs(l.history, first, last, cutoff,
                 w.chain.bank - QueuedStake(w.chain.queue) - l.state.unclaimedUnstakedBalance);
    ReleaseKeepsStructure(l.currentBatch, l.waitList, l.history, first, l.state.lastUnbondedTime, last);
    ReleaseKeepsSolvent(l.currentBatch, l.waitList, l.history, first, l.state.lastUnbondedTime, last);
    ReleaseMovesCost(l.currentBatch, l.history, first, last);
    after := w.(hub := ReleasedLedger(l, last),
                books := w.books.(dust := w.books.dust + ReleaseDust(l.waitList, first, last)));
  }

  lemma AffordableIs(history: History, first: nat, last: nat, cutoff: nat, balance: nat)
    requires Affordable(history, first, last, cutoff, balance)
    ensures forall b | first < b <= last :: b in history
    ensures CostUpTo(history, first, last) <= balance
  {
    forall b | first < b <= last ensures b in history {
      assert Releasable(history, b, cutoff);
    }
  }

  lemma WithdrawRequestsKeepSound(w: World, q: Queries, info: Info, msg: ExecuteMsg)
    requires Sound(w) && Possible(w, Tx(q, info, msg))
    requires msg.ProcessWithdrawRequests?
    requires Transact(w, q, info, msg).Ok?
    ensures Sound(Transact(w, q, info, msg).value)
  {
    hide SoundFor, FreeBalance, WithdrawRateProcessed, MarkReleased, Affordable, ReleasePass, CostUpTo, ReleaseDust;
    var arrived := Arrived(w, info);
    ArrivedIsSound(w, info);
    var cutoff := EnvOf(w.chain).time - w.hub.params.unstakingPeriod;
    var last, left := ReleaseEffect(arrived, q, cutoff);
    var after := ReleaseIsSound(arrived, last, cutoff);
    assert Transact(w, q, info, msg).value == after;
  }

  // ---------------------------------------------------------------- withdrawing

  ghost predicate IsWithdraw(msg: ExecuteMsg) { msg.WithdrawUnstaked? || msg.WithdrawUnstakedForBatches? }

  function AskedIds(msg: ExecuteMsg): Option<seq<nat>> {
    if msg.WithdrawUnstakedForBatches? then Some(msg.batchIds) else None
  }

  /** What a payout leaves: the claims paid are gone, and the amount has left the coins set aside and
      the bank. */
  lemma PayoutIsSound(w: World, user: Addr, ids: seq<nat>) returns (after: World, amount: nat, batches: seq<nat>)
    requires Sound(w)
    requires Finished(w.hub.history, ListedEntries(w.hub.waitList, user, ids)).0 <= w.hub.state.unclaimedUnstakedBalance
    ensures (amount, batches) == Finished(w.hub.history, ListedEntries(w.hub.waitList, user, ids))
    ensures amount <= w.hub.state.unclaimedUnstakedBalance <= w.chain.bank
    ensures after == World(w.hub.(waitList := Without(w.hub.waitList, user, batches),
                                  state := w.hub.state.(
                                    unclaimedUnstakedBalance := w.hub.state.unclaimedUnstakedBalance - amount)),
                           w.chain.(bank := w.chain.bank - amount),
                           w.books.(paidOut := w.books.paidOut + amount,
                                    overpaid := w.books.overpaid + Repeated(w.hub.waitList, w.hub.history, user, ids)))
    ensures Sound(after)
  {
    hide Structured, Tracks, RateCovered, CostUpTo, TotalClaims, Finished, ListedEntries, Repeated, Owed, Without,
         IsReleased;
    var l := w.hub;
    amount, batches := Finished(l.history, ListedEntries(l.waitList, user, ids)).0,
                       Finished(l.history, ListedEntries(l.waitList, user, ids)).1;
    FinishedIsOwedAndRepeated(l.waitList, l.history, user, ids);
    forall id ensures id in batches <==> id in Ids(ids) && (user, id) in l.waitList && IsReleased(l.history, id) {
    }
    WithoutClaims(l.waitList, l.history, user, Ids(ids), batches);
    WithdrawKeepsStructure(l.currentBatch, l.waitList, l.history, l.state.lastProcessedBatch, l.state.lastUnbondedTime,
                           user, batches);
    after := World(l.(waitList := Without(l.waitList, user, batches),
                      state := l.state.(unclaimedUnstakedBalance := l.state.unclaimedUnstakedBalance - amount)),
                   w.chain.(bank := w.chain.bank - amount),
                   w.books.(paidOut := w.books.paidOut + amount,
                            overpaid := w.books.overpaid + Repeated(l.waitList, l.history, user, ids)));
    TracksIgnoresCoins(l.pending, w.chain, after.chain);
  }

  lemma WithdrawIsExecuted(l: Ledger, env: Env, q: Queries, info: Info, msg: ExecuteMsg)
    requires IsWithdraw(msg)
    requires Execute(l, env, q, info, msg).Ok?
    ensures Execute(l, env, q, info, msg) == Withdrawn(l, env, q, info.sender, AskedIds(msg))
  {
    hide Withdrawn;
  }

  /** A withdrawal is a release and then a payout. */
  lemma WithdrawTransaction(w: World, q: Queries, info: Info, msg: ExecuteMsg)
    returns (last: nat, released: Ledger, amount: nat, batches: seq<nat>)
    requires Sound(w) && Possible(w, Tx(q, info, msg))
    requires IsWithdraw(msg)
    requires Transact(w, q, info, msg).Ok?
    ensures w.hub.state.lastProcessedBatch <= last
    ensures EnvOf(w.chain).time >= w.hub.params.unstakingPeriod
    ensures Affordable(w.hub.history, w.hub.state.lastProcessedBatch, last,
                       EnvOf(w.chain).time - w.hub.params.unstakingPeriod,
                         Funded(w, info).bank - QueuedStake(w.chain.queue) - w.hub.state.unclaimedUnstakedBalance)
    ensures last == ReleasePass(w.hub.history, w.hub.state.lastProcessedBatch + 1,
                                EnvOf(w.chain).time - w.hub.params.unstakingPeriod,
                                Funded(w, info).bank - QueuedStake(w.chain.queue)
                                  - w.hub.state.unclaimedUnstakedBalance).0
    ensures released == ReleasedLedger(w.hub, last)
    ensures (amount, batches) == Finished(released.history, ListedEntries(released.waitList, info.sender,
                                                                          AskedBatches(w.hub, info.sender,
                                                                                       AskedIds(msg))))
    ensures 0 < amount <= released.state.unclaimedUnstakedBalance
    ensures amount <= Funded(w, info).bank
    ensures var after := released.(waitList := Without(released.waitList, info.sender, batches),
                                   state := released.state.(unclaimedUnstakedBalance :=
                                              released.state.unclaimedUnstakedBalance - amount));
            var books := Booked(w, q, info, msg, after);
            Transact(w, q, info, msg)
            == Ok(World(after, Funded(w, info).(bank := Funded(w, info).bank - amount),
                        books.(paidOut := books.paidOut + amount)))
  {
    hide SoundFor, FreeBalance, WithdrawRateProcessed, MarkReleased, Affordable, ReleasePass, CostUpTo, Booked,
         BurnTokens, Finished, ListedEntries, Without, UserBatches, Ascending;
    ArrivedIsSound(w, info);
    WithdrawIsExecuted(w.hub, EnvOf(w.chain), q, info, msg);
    hide Execute;
    var o;
    last, released, amount, batches, o := WithdrawnEffect(Arrived(w, info), q, info.sender, AskedIds(msg));
    hide Withdrawn;
    var mid := World(o.ledger, Funded(w, info), Booked(w, q, info, msg, o.ledger));
    assert Transact(w, q, info, msg) == Deliver(mid, q, o.messages);
    hide Transact;
    DeliverSend(mid, q, info.sender, amount);
  }

  lemma DeliverSend(w: World, q: Queries, user: Addr, amount: nat)
    requires amount <= w.chain.bank
    ensures Deliver(w, q, [Send(user, amount)])
         == Ok(w.(chain := w.chain.(bank := w.chain.bank - amount),
                  books := w.books.(paidOut := w.books.paidOut + amount)))
  {
    hide BurnTokens, Deliver;
    assert [Send(user, amount)] == [] + [Send(user, amount)];
    DeliverThen(w, q, [], Send(user, amount));
    assert w.chain.queue + [] == w.chain.queue;
  }

  /** What a withdrawal does to the ledger of a sound world. */
  lemma WithdrawnEffect(w: World, q: Queries, user: Addr, ids: Option<seq<nat>>)
    returns (last: nat, released: Ledger, amount: nat, batches: seq<nat>, o: Outcome)
    requires Sound(w) && q.balance == w.chain.bank
    requires Withdrawn(w.hub, EnvOf(w.chain), q, user, ids).Ok?
    ensures Withdrawn(w.hub, EnvOf(w.chain), q, user, ids) == Ok(o)
    ensures w.hub.state.lastProcessedBatch <= last
    ensures EnvOf(w.chain).time >= w.hub.params.unstakingPeriod
    ensures Affordable(w.hub.history, w.hub.state.lastProcessedBatch, last,
                       EnvOf(w.chain).time - w.hub.params.unstakingPeriod,
                         w.chain.bank - QueuedStake(w.chain.queue) - w.hub.state.unclaimedUnstakedBalance)
    ensures last == ReleasePass(w.hub.history, w.hub.state.lastProcessedBatch + 1,
                                EnvOf(w.chain).time - w.hub.params.unstakingPeriod,
                                  w.chain.bank - QueuedStake(w.chain.queue) - w.hub.state.unclaimedUnstakedBalance).0
    ensures released == ReleasedLedger(w.hub, last)
    ensures (amount, batches)
            == Finished(released.history, ListedEntries(released.waitList, user, AskedBatches(w.hub, user, ids)))
    ensures 0 < amount <= released.state.unclaimedUnstakedBalance && amount <= w.chain.bank
    ensures o == Outcome(released.(waitList := Without(released.waitList, user, batches),
                                   state := released.state.(unclaimedUnstakedBalance :=
                                              released.state.unclaimedUnstakedBalance - amount)),
                         [Send(user, amount)])
  {
    hide SoundFor, FreeBalance, WithdrawRateProcessed, MarkReleased, Affordable, ReleasePass, CostUpTo, Finished,
         ListedEntries, Without, UserBatches, Ascending, Repeated;
    var env := EnvOf(w.chain);
    var left;
    last, left := ReleaseEffect(w, q, env.time - w.hub.params.unstakingPeriod);
    released := ReleasedLedger(w.hub, last);
    var asked := AskedBatches(w.hub, user, ids);
    amount, batches := Finished(released.history, ListedEntries(released.waitList, user, asked)).0,
                       Finished(released.history, ListedEntries(released.waitList, user, asked)).1;
    o := Withdrawn(w.hub, env, q, user, ids).value;
  }

  lemma WithdrawKeepsSound(w: World, q: Queries, info: Info, msg: ExecuteMsg)
    requires Sound(w) && Possible(w, Tx(q, info, msg))
    requires IsWithdraw(msg)
    requires Transact(w, q, info, msg).Ok?
    ensures Sound(Transact(w, q, info, msg).value)
  {
    hide Transact, SoundFor, Affordable, ReleasePass, MarkReleased, CostUpTo, Finished, ListedEntries, Without,
         UserBatches, Ascending, Repeated, ReleaseDust;
    var last, released, amount, batches := WithdrawTransaction(w, q, info, msg);
    ArrivedIsSound(w, info);
    var mid := ReleaseIsSound(Arrived(w, info), last, EnvOf(w.chain).time - w.hub.params.unstakingPeriod);
    var after, amount1, batches1 := PayoutIsSound(mid, info.sender, AskedBatches(w.hub, info.sender, AskedIds(msg)));
    assert Transact(w, q, info, msg).value == after;
  }

  // ---------------------------------------------------------------- all steps

  lemma TransactionKeepsSound(w: World, q: Queries, info: Info, msg: ExecuteMsg)
    requires Sound(w) && Possible(w, Tx(q, info, msg))
    requires Transact(w, q, info, msg).Ok?
    ensures Sound(Transact(w, q, info, msg).value)
  {
    hide Transact, Sound;
    match msg
    case Stake => StakeKeepsSound(w, q, info, msg);
    case StakeRewards => StakeKeepsSound(w, q, info, msg);
    case Unstake(_) => UnstakeKeepsSound(w, q, info, msg);
    case ReceiveUnstake(_, _) => UnstakeKeepsSound(w, q, info, msg);
    case WithdrawUnstaked => WithdrawKeepsSound(w, q, info, msg);
    case WithdrawUnstakedForBatches(_) => WithdrawKeepsSound(w, q, info, msg);
    case CheckSlashing => CheckSlashingKeepsSound(w, q, info, msg);
    case ProcessUndelegations => UndelegationsKeepSound(w, q, info, msg);
    case ProcessWithdrawRequests => WithdrawRequestsKeepSound(w, q, info, msg);
    case UpdateParams(_, _, _) => SettingKeepsSound(w, q, info, msg);
    case UpdateConfig(_, _, _, _) => SettingKeepsSound(w, q, info, msg);
    case RedelegateProxy(_, _) => SettingKeepsSound(w, q, info, msg);
    case UpdateGlobalIndex => SettingKeepsSound(w, q, info, msg);
  }

  lemma BlockKeepsSound(w: World, passed: nat)
    requires Sound(w)
    ensures Sound(w.(chain := NewBlock(w.chain, passed)))
  {
    BlockKeepsTracks(w.hub.pending, w.chain, passed);
    DrainBank(w.chain, w.chain.queue);
    LaterSeconds(w.chain.nanos, passed);
    hide Structured, Solvent, Tracks, RateCovered, Unreleased, Drain;
  }

  lemma LaterSeconds(nanos: nat, passed: nat)
    ensures nanos / NANOS_PER_SECOND <= (nanos + passed) / NANOS_PER_SECOND
  {
  }

  lemma EnvironmentKeepsSound(w: World, chain: Chain)
    requires Sound(w)
    requires chain == w.chain.(bank := chain.bank, delegated := chain.delegated, unbonding := chain.unbonding)
    requires chain.bank >= w.chain.bank
    ensures Sound(w.(chain := chain))
  {
    TracksIgnoresCoins(w.hub.pending, w.chain, chain);
    hide Structured, Solvent, Tracks, RateCovered, Unreleased;
  }

  /** Every step keeps the invariant: a transaction that fails changes nothing, and one that succeeds,
      a burn of tokens by their holder, a block, and every move of the environment preserve it. */
  lemma StepKeepsSound(w: World, step: Step)
    requires Sound(w) && Possible(w, step)
    ensures Sound(Next(w, step))
  {
    hide Transact, SoundFor, BurnTokens, NewBlock;
    SoundHasEpochs(w);
    match step
    case Tx(q, info, msg) =>
      if Transact(w, q, info, msg).Ok? {
        TransactionKeepsSound(w, q, info, msg);
      }
    case TokenBurn(q, amount) =>
      if BurnTokens(w, q, amount).Ok? {
        BurnNeedsSupply(w, q, amount);
        BurnKeepsSound(w, q, amount, Tokens(w));
      }
    case NextBlock(passed) => BlockKeepsSound(w, passed);
    case _ => EnvironmentKeepsSound(w, Next(w, step).chain);
  }

  lemma SoundHasEpochs(w: World)
    requires Sound(w)
    ensures w.chain.epochLength > 0 && w.chain.epochOrigin <= w.chain.height
  {
  }

  // ---------------------------------------------------------------- runs

  /** The world after a run of steps, each possible where it is taken. */
  ghost predicate Run(start: World, steps: seq<Step>, end: World)
    decreases |steps|
  {
    if steps == [] then end == start
    else
      var n := |steps| - 1;
      exists mid ::
        && Run(start, steps[..n], mid)
        && mid.chain.epochLength > 0 && mid.chain.epochOrigin <= mid.chain.height
        && Possible(mid, steps[n])
        && end == Next(mid, steps[n])
  }

  lemma {:induction false} ReachableIsSound(start: World, steps: seq<Step>, end: World)
    requires Start(start) && Run(start, steps, end)
    ensures Sound(end)
    decreases |steps|
  {
    if steps == [] {
      StartIsSound(start);
    } else {
      var n := |steps| - 1;
      var mid :| Run(start, steps[..n], mid)
                 && mid.chain.epochLength > 0 && mid.chain.epochOrigin <= mid.chain.height
                 && Possible(mid, steps[n])
                 && end == Next(mid, steps[n]);
      ReachableIsSound(start, steps[..n], mid);
      StepKeepsSound(mid, steps[n]);
    }
  }
}
