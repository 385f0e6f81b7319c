/** Releasing over whole runs: whatever passes and withdrawals came before, and whenever they came, a
    pass leaves released what a single pass over all the batches would have, with all the coins that
    ever reached the hub to be withdrawn. */
module FifoRuns {
  import opened Wrappers
  import opened FixedPoint
  import opened PendingEpoch
  import opened HubTypes
  import opened Claims
  import opened Release
  import opened Handlers
  import opened Slashing
  import opened World
  import opened Batches
  import opened Runs
  import opened Reachable
  import opened SlashFreeRuns

  /** The coins a step brings the hub that it does not stake. */
  ghost function CameIn(w: World, step: Step): nat {
    match step
    case Tx(q, info, msg) =>
      if Transact(w, q, info, msg).Ok? && !msg.Stake? && !msg.StakeRewards?
      then SumOfDenom(info.funds, w.hub.params.stakingCoinDenom) else 0
    case Arrive(amount) => amount
    case Donate(amount) => amount
    case _ => 0
  }

  /** The coins a pass can spend. */
  ghost function Spendable(w: World): int {
    w.chain.bank - QueuedStake(w.chain.queue) - w.hub.state.unclaimedUnstakedBalance
  }

  /** The coins passes could ever spend: those they can, and those they have spent. */
  ghost function EverSpendable(w: World): int {
    Spendable(w) + CostUpTo(w.hub.history, 0, w.hub.state.lastProcessedBatch)
  }

  /** Every released batch had matured by now. */
  ghost predicate Matured(history: History, period: nat, time: nat) {
    forall b | b in history && history[b].released :: history[b].time + period <= time
  }

  ghost predicate Mature(w: World) { Matured(w.hub.history, w.hub.params.unstakingPeriod, EnvOf(w.chain).time) }

  /** The step does not lengthen the unstaking period. */
  ghost predicate DoesNotLengthen(w: World, step: Step) {
    step.Tx? && step.msg.UpdateParams? && step.msg.unstakingPeriod.Some? ==>
      step.msg.unstakingPeriod.value <= w.hub.params.unstakingPeriod
  }

  /** What a step must do to `w` for the argument: receive `came`, and release only what has matured. */
  ghost predicate Receives(w: World, after: World, came: nat) {
    && EverSpendable(after) == EverSpendable(w) + came
    && (Mature(w) && after.hub.params.unstakingPeriod <= w.hub.params.unstakingPeriod ==> Mature(after))
  }

  ghost predicate SamePeriod(w: World, after: World) {
    after.hub.params.unstakingPeriod == w.hub.params.unstakingPeriod
  }

  // ---------------------------------------------------------------- transactions

  lemma StakeReceives(w: World, q: Queries, info: Info, msg: ExecuteMsg)
    requires msg.Stake? || msg.StakeRewards?
    requires Transact(w, q, info, msg).Ok?
    ensures Receives(w, Transact(w, q, info, msg).value, 0) && SamePeriod(w, Transact(w, q, info, msg).value)
  {
    hide Transact, CostUpTo, ActualState, UpdatePending, MintAmount, Booked;
    var o, st, payment, minted, queued := StakeTransaction(w, q, info, msg);
    CheckWritesTotalAndRate(w.hub.state, w.hub.params.stakingCoinDenom, w.hub.currentBatch.requestedLstTokenAmount,
                            w.hub.pending, EnvOf(w.chain), q);
    QueueAppend(w.chain.queue, queued);
  }

  /** The epoch check spends nothing: it stores the batch, or adds a record not yet released. */
  lemma EpochReceives(l: Ledger, batch: CurrentBatch, env: Env, q: Queries) returns (o: Outcome)
    requires BatchEpochChecked(l, batch, env, q).Ok?
    requires l.state.lastProcessedBatch < batch.id
    ensures BatchEpochChecked(l, batch, env, q) == Ok(o)
    ensures o.ledger.state.unclaimedUnstakedBalance == l.state.unclaimedUnstakedBalance
    ensures o.ledger.state.lastProcessedBatch == l.state.lastProcessedBatch
    ensures o.ledger.params == l.params
    ensures CostUpTo(o.ledger.history, 0, l.state.lastProcessedBatch)
            == CostUpTo(l.history, 0, l.state.lastProcessedBatch)
    ensures forall period, time :: Matured(l.history, period, time) ==> Matured(o.ledger.history, period, time)
    ensures QueuedStake(o.messages) == 0 && forall m | m in o.messages :: m.Undelegate?
  {
    hide BatchEpochChecked, BatchProcessed, ActualState, CostUpTo, UpdatePending, DecimalMultiplication;
    var st;
    o, st := BatchEpochEffect(l, batch, env, q);
    if env.time - st.lastUnbondedTime > l.params.epochLength {
      var o1, unstaked := BatchProcessedEffect(l.(state := st), batch, env, q);
      LaterRecordKeepsCost(l.history, batch.id, o.ledger.history[batch.id], 0, l.state.lastProcessedBatch);
    }
  }

  lemma UnstakeReceives(w: World, q: Queries, info: Info, msg: ExecuteMsg)
    requires IsUnstake(msg) && w.hub.state.lastProcessedBatch < w.hub.currentBatch.id
    requires Transact(w, q, info, msg).Ok?
    ensures Receives(w, Transact(w, q, info, msg).value, SumOfDenom(info.funds, w.hub.params.stakingCoinDenom))
    ensures SamePeriod(w, Transact(w, q, info, msg).value)
  {
    hide Transact, BatchEpochChecked, BurnTokens, Recorded, CostUpTo, Booked, Matured, QueuedStake;
    var o, mid := UnstakeChecked(w, q, info, msg);
    var recorded := RecordedWorld(w, info, msg);
    var o1 := EpochReceives(recorded.hub.(currentBatch := w.hub.currentBatch), recorded.hub.currentBatch,
                            EnvOf(w.chain), q);
    QueueAppend(w.chain.queue, o.messages);
    BurnReceives(mid, q, UnstakeAmount(msg));
  }

  lemma BurnReceives(w: World, q: Queries, amount: nat)
    requires BurnTokens(w, q, amount).Ok?
    ensures Receives(w, BurnTokens(w, q, amount).value, 0) && SamePeriod(w, BurnTokens(w, q, amount).value)
  {
    hide CostUpTo, ActualState, Matured, LoweredByCheck;
    CheckWritesTotalAndRate(w.hub.state, w.hub.params.stakingCoinDenom, w.hub.currentBatch.requestedLstTokenAmount,
                            w.hub.pending, EnvOf(w.chain), q.(supply := w.chain.supply - amount));
  }

  lemma UndelegationsReceive(w: World, q: Queries, info: Info, msg: ExecuteMsg)
    requires msg.ProcessUndelegations? && w.hub.state.lastProcessedBatch < w.hub.currentBatch.id
    requires Transact(w, q, info, msg).Ok?
    ensures Receives(w, Transact(w, q, info, msg).value, SumOfDenom(info.funds, w.hub.params.stakingCoinDenom))
    ensures SamePeriod(w, Transact(w, q, info, msg).value)
  {
    hide BatchEpochChecked, BurnTokens, CostUpTo, Booked, Matured;
    if w.hub.currentBatch.requestedLstTokenAmount > 0 {
      var o := EpochReceives(w.hub, w.hub.currentBatch, EnvOf(w.chain), q);
      QueueAppend(w.chain.queue, o.messages);
      DeliverQueued(World(o.ledger, Funded(w, info), Booked(w, q, info, msg, o.ledger)), q, o.messages);
    }
  }

  lemma CheckReceives(w: World, q: Queries, info: Info, msg: ExecuteMsg)
    requires msg.CheckSlashing?
    requires Transact(w, q, info, msg).Ok?
    ensures Receives(w, Transact(w, q, info, msg).value, SumOfDenom(info.funds, w.hub.params.stakingCoinDenom))
    ensures SamePeriod(w, Transact(w, q, info, msg).value)
  {
    hide CostUpTo, ActualState, Matured, Booked;
    CheckWritesTotalAndRate(w.hub.state, w.hub.params.stakingCoinDenom, w.hub.currentBatch.requestedLstTokenAmount,
                            w.hub.pending, EnvOf(w.chain), q);
  }

  lemma SettingReceives(w: World, q: Queries, info: Info, msg: ExecuteMsg)
    requires IsSetting(msg)
    requires Transact(w, q, info, msg).Ok?
    ensures Receives(w, Transact(w, q, info, msg).value, SumOfDenom(info.funds, w.hub.params.stakingCoinDenom))
    ensures var after := Transact(w, q, info, msg).value;
            if msg.UpdateParams? && msg.unstakingPeriod.Some?
            then after.hub.params.unstakingPeriod == msg.unstakingPeriod.value
            else SamePeriod(w, after)
  {
    hide CostUpTo, Transact;
    var after := SettingTransaction(w, q, info, msg);
  }

  /** A release moves its cost from what can be spent to what was. */
  lemma ReleaseReceives(history: History, processed: nat, last: nat, period: nat, time: nat, balance: nat)
    requires processed <= last && period <= time
    requires Affordable(history, processed, last, time - period, balance)
    ensures CostUpTo(MarkReleased(history, processed, last), 0, last)
         == CostUpTo(history, 0, processed) + CostUpTo(history, processed, last)
    ensures Matured(history, period, time) ==> Matured(MarkReleased(history, processed, last), period, time)
  {
    MarkKeepsCosts(history, processed, last, 0, last);
    CostGrows(history, 0, processed, last);
    var marked := MarkReleased(history, processed, last);
    if Matured(history, period, time) {
      forall b | b in marked && marked[b].released ensures marked[b].time + period <= time {
        if processed < b <= last {
          assert Releasable(history, b, time - period);
        }
      }
    }
  }

  /** What a pass of the hub releases. */
  ghost function LastOfPass(w: World, info: Info): nat
    requires w.hub.params.unstakingPeriod <= EnvOf(w.chain).time
    requires Spendable(Arrived(w, info)) >= 0
  {
    ReleasePass(w.hub.history, w.hub.state.lastProcessedBatch + 1, EnvOf(w.chain).time - w.hub.params.unstakingPeriod,
                Spendable(Arrived(w, info))).0
  }

  ghost predicate Releases(msg: ExecuteMsg) { msg.ProcessWithdrawRequests? || IsWithdraw(msg) }

  lemma PassReceives(w: World, q: Queries, info: Info, msg: ExecuteMsg)
    requires Sound(w) && Possible(w, Tx(q, info, msg))
    requires Releases(msg)
    requires Transact(w, q, info, msg).Ok?
    ensures w.hub.params.unstakingPeriod <= EnvOf(w.chain).time && Spendable(Arrived(w, info)) >= 0
    ensures var after := Transact(w, q, info, msg).value;
            && Receives(w, after, SumOfDenom(info.funds, w.hub.params.stakingCoinDenom)) && SamePeriod(w, after)
            && after.hub.state.lastProcessedBatch == LastOfPass(w, info)
            && after.hub.history == MarkReleased(w.hub.history, w.hub.state.lastProcessedBatch, LastOfPass(w, info))
  {
    hide SoundFor, FreeBalance, WithdrawRateProcessed, MarkReleased, Affordable, ReleasePass, CostUpTo, ReleaseDust,
         Matured, Finished, ListedEntries, Without, UserBatches, Ascending, Booked, BurnTokens;
    ArrivedIsSound(w, info);
    EnoughToSpend(Arrived(w, info));
    var time := EnvOf(w.chain).time;
    var period := w.hub.params.unstakingPeriod;
    var processed := w.hub.state.lastProcessedBatch;
    if msg.ProcessWithdrawRequests? {
      var last, left := ReleaseEffect(Arrived(w, info), q, time - period);
      ReleaseReceives(w.hub.history, processed, last, period, time, Spendable(Arrived(w, info)));
    } else {
      var last, released, amount, batches := WithdrawTransaction(w, q, info, msg);
      hide Transact;
      ReleaseReceives(w.hub.history, processed, last, period, time, Spendable(Arrived(w, info)));
    }
  }

  lemma EnoughToSpend(w: World)
    requires Sound(w)
    ensures Spendable(w) >= 0
    ensures w.hub.state.lastProcessedBatch < w.hub.currentBatch.id
  {
    hide Solvent, Tracks, RateCovered, Unreleased;
  }

  lemma TransactionReceives(w: World, q: Queries, info: Info, msg: ExecuteMsg)
    requires Sound(w) && Possible(w, Tx(q, info, msg))
    requires Transact(w, q, info, msg).Ok?
    ensures Receives(w, Transact(w, q, info, msg).value, CameIn(w, Tx(q, info, msg)))
    ensures DoesNotLengthen(w, Tx(q, info, msg)) ==>
              Transact(w, q, info, msg).value.hub.params.unstakingPeriod <= w.hub.params.unstakingPeriod
  {
    hide Transact, Receives, SoundFor;
    EnoughToSpend(w);
    match msg
    case Stake => StakeReceives(w, q, info, msg);
    case StakeRewards => StakeReceives(w, q, info, msg);
    case Unstake(_) => UnstakeReceives(w, q, info, msg);
    case ReceiveUnstake(_, _) => UnstakeReceives(w, q, info, msg);
    case WithdrawUnstaked => PassReceives(w, q, info, msg);
    case WithdrawUnstakedForBatches(_) => PassReceives(w, q, info, msg);
    case CheckSlashing => CheckReceives(w, q, info, msg);
    case ProcessUndelegations => UndelegationsReceive(w, q, info, msg);
    case ProcessWithdrawRequests => PassReceives(w, q, info, msg);
    case UpdateParams(_, _, _) => SettingReceives(w, q, info, msg);
    case UpdateConfig(_, _, _, _) => SettingReceives(w, q, info, msg);
    case RedelegateProxy(_, _) => SettingReceives(w, q, info, msg);
    case UpdateGlobalIndex => SettingReceives(w, q, info, msg);
  }

  lemma BlockReceives(w: World, passed: nat)
    requires Sound(w)
    ensures Receives(w, w.(chain := NewBlock(w.chain, passed)), 0)
  {
    hide Structured, Solvent, Tracks, RateCovered, Unreleased, Drain, CostUpTo;
    SoundHasEpochs(w);
    DrainBank(w.chain, w.chain.queue);
    LaterSeconds(w.chain.nanos, passed);
  }

  lemma StepReceives(w: World, step: Step)
    requires Sound(w) && Possible(w, step)
    requires w.chain.epochLength > 0 && w.chain.epochOrigin <= w.chain.height
    ensures Receives(w, Next(w, step), CameIn(w, step))
    ensures DoesNotLengthen(w, step) ==> Next(w, step).hub.params.unstakingPeriod <= w.hub.params.unstakingPeriod
  {
    hide Transact, SoundFor, BurnTokens, NewBlock, CostUpTo, Matured;
    match step
    case Tx(q, info, msg) =>
      if Transact(w, q, info, msg).Ok? {
        TransactionReceives(w, q, info, msg);
      }
    case TokenBurn(q, amount) =>
      if BurnTokens(w, q, amount).Ok? {
        BurnReceives(w, q, amount);
      }
    case NextBlock(passed) => BlockReceives(w, passed);
    case _ =>
  }

  // ---------------------------------------------------------------- runs

  /** A run in which `came` coins reached the hub to be withdrawn. A steady one never lengthens the
      unstaking period. */
  ghost predicate ReceivingRun(start: World, steps: seq<Step>, end: World, came: nat, steady: bool)
    decreases |steps|
  {
    if steps == [] then end == start && came == start.chain.bank
    else
      var n := |steps| - 1;
      exists mid, before: nat ::
        && ReceivingRun(start, steps[..n], mid, before, steady)
        && mid.chain.epochLength > 0 && mid.chain.epochOrigin <= mid.chain.height
        && Possible(mid, steps[n]) && (steady ==> DoesNotLengthen(mid, steps[n]))
        && end == Next(mid, steps[n])
        && came == before + CameIn(mid, steps[n])
  }

  /** Every coin that reached the hub to be withdrawn can be spent by a pass, or was spent on a
      released batch: none is lost to rounding, and none is spent twice. If the unstaking period was never
      lengthened, every released batch is still past it. */
  lemma {:induction false} RunReceives(start: World, steps: seq<Step>, end: World, came: nat, steady: bool)
    requires Start(start) && ReceivingRun(start, steps, end, came, steady)
    ensures Sound(end) && EverSpendable(end) == came
    ensures steady ==> Mature(end)
    decreases |steps|
  {
    hide Start, Sound, Possible, DoesNotLengthen, Next, CameIn;
    if steps == [] {
      StartIsSound(start);
      StartLedger(start);
    } else {
      var n := |steps| - 1;
      var mid, before: nat :| ReceivingRun(start, steps[..n], mid, before, steady)
                 && mid.chain.epochLength > 0 && mid.chain.epochOrigin <= mid.chain.height
                 && Possible(mid, steps[n]) && (steady ==> DoesNotLengthen(mid, steps[n]))
                 && end == Next(mid, steps[n])
                 && came == before + CameIn(mid, steps[n]);
      RunReceives(start, steps[..n], mid, before, steady);
      StepKeepsSound(mid, steps[n]);
      hide EverSpendable, Mature;
      StepReceives(mid, steps[n]);
    }
  }

  /** The records as they were before any release. */
  ghost function Unmarked(history: History): History {
    map b | b in history :: history[b].(released := false)
  }

  /** The released batches are the first ones, matured and paid for by what came in. */
  lemma ReleasedAreFirst(w: World, cutoff: nat, came: nat)
    requires Sound(w) && Mature(w) && EverSpendable(w) == came
    requires w.hub.params.unstakingPeriod <= EnvOf(w.chain).time
    requires cutoff == EnvOf(w.chain).time - w.hub.params.unstakingPeriod
    ensures w.hub.history == MarkReleased(Unmarked(w.hub.history), 0, w.hub.state.lastProcessedBatch)
    ensures Affordable(Unmarked(w.hub.history), 0, w.hub.state.lastProcessedBatch, cutoff, came)
    ensures CostUpTo(Unmarked(w.hub.history), 0, w.hub.state.lastProcessedBatch)
         == CostUpTo(w.hub.history, 0, w.hub.state.lastProcessedBatch)
  {
    hide Solvent, Tracks, RateCovered, Unreleased, CostUpTo;
    var l := w.hub;
    var processed := l.state.lastProcessedBatch;
    forall b | b in l.history ensures l.history[b].released <==> b <= processed {
      RecordIs(l.currentBatch, l.waitList, l.history, processed, l.state.lastUnbondedTime, b);
    }
    MarkKeepsCosts(Unmarked(l.history), 0, processed, 0, processed);
    assert l.history == MarkReleased(Unmarked(l.history), 0, processed);
    forall b | 0 < b <= processed ensures Releasable(Unmarked(l.history), b, cutoff) {
      assert b in l.history;
    }
  }

  /** However often passes and withdrawals came before, and whenever, a pass of the hub ends where a
      single pass over all the records would, given at once every coin that came in: with the same
      batches released and the same coins left to spend. */
  lemma PassIsOnePassOverAll(start: World, steps: seq<Step>, end: World, came: nat, q: Queries, info: Info,
                             msg: ExecuteMsg)
    requires Start(start) && ReceivingRun(start, steps, end, came, true)
    requires Possible(end, Tx(q, info, msg)) && Releases(msg)
    requires Transact(end, q, info, msg).Ok?
    ensures end.hub.params.unstakingPeriod <= EnvOf(end.chain).time
    ensures var after := Transact(end, q, info, msg).value;
            var all := Unmarked(end.hub.history);
            && (after.hub.state.lastProcessedBatch, Spendable(after))
               == ReleasePass(all, 1, EnvOf(end.chain).time - end.hub.params.unstakingPeriod,
                              came + SumOfDenom(info.funds, end.hub.params.stakingCoinDenom))
            && after.hub.history == MarkReleased(all, 0, after.hub.state.lastProcessedBatch)
  {
    hide Start, ReceivingRun, Possible, Transact, Sound, MarkReleased, ReleasePass, CostUpTo, Unmarked, Affordable;
    RunReceives(start, steps, end, came, true);
    PassReceives(end, q, info, msg);
    var l := end.hub;
    var processed := l.state.lastProcessedBatch;
    var cutoff := EnvOf(end.chain).time - l.params.unstakingPeriod;
    var all := Unmarked(l.history);
    var funds := SumOfDenom(info.funds, l.params.stakingCoinDenom);
    ReleasedAreFirst(end, cutoff, came);
    MoreIsAffordable(all, processed, cutoff, came, came + funds);
    SecondPass(all, 0, processed, cutoff, Spendable(Arrived(end, info)), came + funds);
    var last := LastOfPass(end, info);
    PassReleasesLongestPrefix(all, 0, cutoff, came + funds);
    var after := Transact(end, q, info, msg).value;
    MarkTwice(all, 0, processed, last);
    MarkKeepsCosts(all, 0, last, 0, last);
  }

  lemma MoreIsAffordable(history: History, last: nat, cutoff: nat, balance: nat, more: nat)
    requires Affordable(history, 0, last, cutoff, balance) && balance <= more
    ensures Affordable(history, 0, last, cutoff, more)
  {
  }
}
