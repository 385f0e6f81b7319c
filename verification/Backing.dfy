/** Unstaked batches can be paid: in calm runs in which no coin is lost while it unbonds, what the batches not
    yet released cost is always in the bank, unbonding, or queued to be unstaked. */
module BackedReleases {
  import opened Wrappers
  import opened FixedPoint
  import opened PendingEpoch
  import opened HubTypes
  import opened Claims
  import opened Release
  import opened Handlers
  import opened Slashing
  import opened World
  import opened Batches
  import opened Runs
  import opened Reachable
  import opened SlashFreeRuns
  import opened CalmRuns
  import opened FifoRuns
  import opened Theorems

  /** What all undelegated batches cost, less what of it has yet to come back from the chain. */
  ghost function ComeBack(w: World): int
    requires w.hub.currentBatch.id > 0
  {
    CostUpTo(w.hub.history, 0, w.hub.currentBatch.id - 1) - QueuedUnstake(w.chain.queue) - w.chain.unbonding
  }

  /** What the batches not yet released cost is in the bank, unbonding, or queued to be unstaked. */
  ghost predicate Backs(w: World) {
    && w.hub.currentBatch.id > 0
    && ComeBack(w) <= EverSpendable(w)
  }

  /** No more comes back in the step than reaches the bank. */
  ghost predicate BringsIn(w: World, after: World, came: nat) {
    w.hub.currentBatch.id > 0 ==> after.hub.currentBatch.id > 0 && ComeBack(after) <= ComeBack(w) + came
  }

  // ---------------------------------------------------------------- transactions

  lemma StakeBringsIn(w: World, q: Queries, info: Info, msg: ExecuteMsg)
    requires msg.Stake? || msg.StakeRewards?
    requires Transact(w, q, info, msg).Ok?
    ensures BringsIn(w, Transact(w, q, info, msg).value, 0)
  {
    hide Transact, CostUpTo, CheckedState, UpdatePending, MintAmount, Booked;
    var o, st, payment, minted, queued := StakeTransaction(w, q, info, msg);
    QueueAppend(w.chain.queue, queued);
  }

  /** The epoch check queues exactly what the batch it records costs. */
  lemma EpochBringsIn(l: Ledger, batch: CurrentBatch, env: Env, q: Queries) returns (o: Outcome)
    requires BatchEpochChecked(l, batch, env, q).Ok?
    requires batch.id > 0
    ensures BatchEpochChecked(l, batch, env, q) == Ok(o)
    ensures o.ledger.currentBatch.id > 0
    ensures CostUpTo(o.ledger.history, 0, o.ledger.currentBatch.id - 1)
         == CostUpTo(l.history, 0, batch.id - 1) + QueuedUnstake(o.messages)
    ensures forall m | m in o.messages :: m.Undelegate?
  {
    hide BatchEpochChecked, BatchProcessed, CheckedState, UpdatePending, DecimalMultiplication;
    var st;
    o, st := BatchEpochEffect(l, batch, env, q);
    if env.time - st.lastUnbondedTime > l.params.epochLength {
      var o1, unstaked := BatchProcessedEffect(l.(state := st), batch, env, q);
      UndelegateAddsCost(batch, l.history, 0, o.ledger.history[batch.id]);
    }
  }

  lemma UnstakeBringsIn(w: World, q: Queries, info: Info, msg: ExecuteMsg)
    requires IsUnstake(msg) && w.hub.currentBatch.id > 0
    requires Transact(w, q, info, msg).Ok?
    ensures BringsIn(w, Transact(w, q, info, msg).value, 0)
  {
    hide Transact, BatchEpochChecked, BurnTokens, Recorded, CostUpTo, Booked;
    var o, mid := UnstakeChecked(w, q, info, msg);
    var recorded := RecordedWorld(w, info, msg);
    var o1 := EpochBringsIn(recorded.hub.(currentBatch := w.hub.currentBatch), recorded.hub.currentBatch,
                            EnvOf(w.chain), q);
    QueueAppend(w.chain.queue, o.messages);
    BurnBringsIn(mid, q, UnstakeAmount(msg));
  }

  lemma BurnBringsIn(w: World, q: Queries, amount: nat)
    requires BurnTokens(w, q, amount).Ok?
    ensures BringsIn(w, BurnTokens(w, q, amount).value, 0)
  {
    hide CostUpTo, CheckedState, LoweredByCheck;
  }

  lemma UndelegationsBringIn(w: World, q: Queries, info: Info, msg: ExecuteMsg)
    requires msg.ProcessUndelegations? && w.hub.currentBatch.id > 0
    requires Transact(w, q, info, msg).Ok?
    ensures BringsIn(w, Transact(w, q, info, msg).value, 0)
  {
    hide BatchEpochChecked, BurnTokens, CostUpTo, Booked;
    if w.hub.currentBatch.requestedLstTokenAmount > 0 {
      var o := EpochBringsIn(w.hub, w.hub.currentBatch, EnvOf(w.chain), q);
      QueueAppend(w.chain.queue, o.messages);
      DeliverQueued(World(o.ledger, Funded(w, info), Booked(w, q, info, msg, o.ledger)), q, o.messages);
    }
  }

  lemma CheckBringsIn(w: World, q: Queries, info: Info, msg: ExecuteMsg)
    requires msg.CheckSlashing?
    requires Transact(w, q, info, msg).Ok?
    ensures BringsIn(w, Transact(w, q, info, msg).value, 0)
  {
    hide CostUpTo, CheckedState, Booked;
  }

  lemma SettingBringsIn(w: World, q: Queries, info: Info, msg: ExecuteMsg)
    requires IsSetting(msg)
    requires Transact(w, q, info, msg).Ok?
    ensures BringsIn(w, Transact(w, q, info, msg).value, 0)
  {
    hide CostUpTo, Transact;
    var after := SettingTransaction(w, q, info, msg);
  }

  lemma PassBringsIn(w: World, q: Queries, info: Info, msg: ExecuteMsg)
    requires Sound(w) && Possible(w, Tx(q, info, msg)) && Releases(msg)
    requires Transact(w, q, info, msg).Ok?
    ensures BringsIn(w, Transact(w, q, info, msg).value, 0)
  {
    hide SoundFor, Transact, CostUpTo, MarkReleased, Receives, LastOfPass, Possible;
    PassReceives(w, q, info, msg);
    var after := PassTransaction(w, q, info, msg);
    if w.hub.currentBatch.id > 0 {
      MarkKeepsCosts(w.hub.history, w.hub.state.lastProcessedBatch, LastOfPass(w, info), 0, w.hub.currentBatch.id - 1);
    }
  }

  lemma TransactionBringsIn(w: World, q: Queries, info: Info, msg: ExecuteMsg)
    requires Sound(w) && Possible(w, Tx(q, info, msg)) && w.hub.currentBatch.id > 0
    requires Transact(w, q, info, msg).Ok?
    ensures BringsIn(w, Transact(w, q, info, msg).value, 0)
  {
    hide Transact, BringsIn, SoundFor;
    match msg
    case Stake => StakeBringsIn(w, q, info, msg);
    case StakeRewards => StakeBringsIn(w, q, info, msg);
    case Unstake(_) => UnstakeBringsIn(w, q, info, msg);
    case ReceiveUnstake(_, _) => UnstakeBringsIn(w, q, info, msg);
    case WithdrawUnstaked => PassBringsIn(w, q, info, msg);
    case WithdrawUnstakedForBatches(_) => PassBringsIn(w, q, info, msg);
    case CheckSlashing => CheckBringsIn(w, q, info, msg);
    case ProcessUndelegations => UndelegationsBringIn(w, q, info, msg);
    case ProcessWithdrawRequests => PassBringsIn(w, q, info, msg);
    case UpdateParams(_, _, _) => SettingBringsIn(w, q, info, msg);
    case UpdateConfig(_, _, _, _) => SettingBringsIn(w, q, info, msg);
    case RedelegateProxy(_, _) => SettingBringsIn(w, q, info, msg);
    case UpdateGlobalIndex => SettingBringsIn(w, q, info, msg);
  }

  // ---------------------------------------------------------------- runs

  lemma BlockBringsIn(w: World, passed: nat)
    requires Calm(w)
    ensures w.chain.epochLength > 0 && w.chain.epochOrigin <= w.chain.height
    ensures BringsIn(w, w.(chain := NewBlock(w.chain, passed)), 0)
  {
    hide Structured, Solvent, Tracks, RateCovered, Unreleased, Drain, SlashFreeFor, CostUpTo, Paced, Covered;
    DrainCovered(w.chain, w.chain.queue);
  }

  /** A calm step in which no coin is lost while it unbonds. */
  ghost predicate LossFreeStep(epochLength: nat, step: Step) {
    CalmStep(epochLength, step) && !step.LoseUnbonding?
  }

  lemma StepBringsIn(w: World, step: Step)
    requires Calm(w) && Possible(w, step) && !step.LoseUnbonding? && w.hub.currentBatch.id > 0
    requires w.chain.epochLength > 0 && w.chain.epochOrigin <= w.chain.height
    ensures BringsIn(w, Next(w, step), CameIn(w, step))
  {
    hide Transact, SlashFreeFor, SoundFor, OnPace, BurnTokens, NewBlock, CostUpTo;
    match step
    case Tx(q, info, msg) =>
      if Transact(w, q, info, msg).Ok? {
        TransactionBringsIn(w, q, info, msg);
      }
    case TokenBurn(q, amount) =>
      if BurnTokens(w, q, amount).Ok? {
        BurnBringsIn(w, q, amount);
      }
    case NextBlock(passed) => BlockBringsIn(w, passed);
    case _ =>
  }

  lemma StepKeepsBacks(w: World, step: Step)
    requires Calm(w) && Possible(w, step) && LossFreeStep(w.chain.epochLength, step) && Backs(w)
    requires w.chain.epochLength > 0 && w.chain.epochOrigin <= w.chain.height
    ensures Backs(Next(w, step))
  {
    hide SlashFreeFor, SoundFor, OnPace, Next, ComeBack, EverSpendable, CameIn, Possible, CalmStep, Mature;
    StepBringsIn(w, step);
    StepReceives(w, step);
  }

  lemma StartBacks(w: World)
    requires Start(w)
    ensures Backs(w)
  {
    hide Start;
    StartLedger(w);
    assert QueuedUnstake(w.chain.queue) == 0;
  }

  /** In every state of a calm run in which no coin is lost while it unbonds, the coins a pass can spend,
      those unbonding and those queued to be unstaked cover every batch not yet released. */
  lemma {:induction false} ReachableIsBacked(start: World, steps: seq<Step>, end: World)
    requires Start(start) && Run(start, steps, end)
    requires forall s | s in steps :: LossFreeStep(start.chain.epochLength, s)
    ensures Calm(end) && end.chain.epochLength == start.chain.epochLength && Backs(end)
    ensures end.hub.currentBatch.id > 0
    ensures Unreleased(end.hub.currentBatch, end.hub.history, end.hub.state.lastProcessedBatch)
         <= Spendable(end) + end.chain.unbonding + QueuedUnstake(end.chain.queue)
    decreases |steps|
  {
    hide Start, Calm, Next, Possible, Unreleased, CalmStep, Backs;
    if steps == [] {
      StartIsCalm(start);
      StartBacks(start);
    } else {
      var n := |steps| - 1;
      var mid :| Run(start, steps[..n], mid)
                 && mid.chain.epochLength > 0 && mid.chain.epochOrigin <= mid.chain.height
                 && Possible(mid, steps[n])
                 && end == Next(mid, steps[n]);
      ReachableIsBacked(start, steps[..n], mid);
      assert steps[n] in steps && LossFreeStep(start.chain.epochLength, steps[n]);
      StepKeepsCalm(mid, steps[n]);
      StepKeepsBacks(mid, steps[n]);
      NextKeepsEpochs(mid, steps[n]);
    }
    BacksUnreleased(end);
  }

  lemma BacksUnreleased(w: World)
    requires Calm(w) && Backs(w)
    ensures w.hub.state.lastProcessedBatch < w.hub.currentBatch.id
    ensures Unreleased(w.hub.currentBatch, w.hub.history, w.hub.state.lastProcessedBatch)
         <= Spendable(w) + w.chain.unbonding + QueuedUnstake(w.chain.queue)
  {
    hide SoundFor, SlashFreeFor, OnPace, CostUpTo;
    EnoughToSpend(w);
    CostGrows(w.hub.history, 0, w.hub.state.lastProcessedBatch, w.hub.currentBatch.id - 1);
  }

  // ---------------------------------------------------------------- every matured batch is paid

  /** The batch has matured. */
  ghost predicate MaturedBatch(w: World, b: nat) {
    b in w.hub.history && w.hub.history[b].time + w.hub.params.unstakingPeriod <= EnvOf(w.chain).time
  }

  /** What is still to come back is owed to later batches only. */
  ghost predicate OutForLater(w: World, b: nat)
    requires w.hub.currentBatch.id > 0
  {
    w.chain.unbonding + QueuedUnstake(w.chain.queue) <= CostUpTo(w.hub.history, b, w.hub.currentBatch.id - 1)
  }

  /** As soon as what still unbonds or is queued is owed to later batches only, a pass releases a matured
      batch, whatever other batches are under way. */
  lemma MaturedBatchIsReleased(start: World, steps: seq<Step>, end: World, b: nat)
    requires Start(start) && Run(start, steps, end)
    requires forall s | s in steps :: LossFreeStep(start.chain.epochLength, s)
    requires end.hub.currentBatch.id > 0 && MaturedBatch(end, b) && OutForLater(end, b)
    ensures EnvOf(end.chain).time >= end.hub.params.unstakingPeriod
    ensures b in PassedLedger(end).history
    ensures PassedLedger(end).history[b] == end.hub.history[b].(released := true)
  {
    hide Start, Run, LossFreeStep, SoundFor, SlashFreeFor, OnPace, Unreleased, PassedLedger, Backs;
    ReachableIsBacked(start, steps, end);
    PassReachesMatured(end, b);
  }

  /** With nothing queued to be unstaked and nothing unbonding, it releases all of them. */
  lemma MaturedBatchesAreReleased(start: World, steps: seq<Step>, end: World)
    requires Start(start) && Run(start, steps, end)
    requires forall s | s in steps :: LossFreeStep(start.chain.epochLength, s)
    requires end.chain.unbonding == 0 && QueuedUnstake(end.chain.queue) == 0
    requires EnvOf(end.chain).time >= end.hub.params.unstakingPeriod
    ensures forall b | MaturedBatch(end, b) :: b in PassedLedger(end).history && PassedLedger(end).history[b].released
  {
    hide Start, Run, LossFreeStep, SoundFor, SlashFreeFor, OnPace, Unreleased, PassedLedger, Backs, MaturedBatch;
    ReachableIsBacked(start, steps, end);
    forall b | MaturedBatch(end, b) ensures b in PassedLedger(end).history && PassedLedger(end).history[b].released {
      MaturedBatchIsReleased(start, steps, end, b);
    }
  }

  /** Every unstake is paid in the end: on a calm run without loss that lists no batch twice in a withdrawal,
      once a user's batch has matured and what is still out is owed to later ones only, the user's
      withdrawal of that batch succeeds and pays the claim to the coin, if it is worth a coin. */
  lemma MaturedClaimIsPaid(start: World, steps: seq<Step>, end: World, b: nat, user: Addr, q: Queries)
    requires Start(start) && Run(start, steps, end)
    requires forall s | s in steps :: LossFreeStep(start.chain.epochLength, s) && OrderlyStep(s)
    requires end.hub.currentBatch.id > 0 && MaturedBatch(end, b) && OutForLater(end, b)
    requires (user, b) in end.hub.waitList && q.balance == end.chain.bank
    ensures var claim := Redeemed(end.hub.history, b, end.hub.waitList[(user, b)]);
            var r := Withdrawn(end.hub, EnvOf(end.chain), q, user, Some([b]));
            if claim > 0 then r.Ok? && r.value.messages == [Send(user, claim)] else r == Err(NoWithdrawableAssets)
  {
    hide Start, Run, LossFreeStep, OrderlyStep, SoundFor, SlashFreeFor, OnPace, Unreleased, PassedLedger, Backs,
         MaturedBatch, OutForLater, Withdrawn, Owed;
    MaturedBatchIsReleased(start, steps, end, b);
    ReachableIsSound(start, steps, end);
    OrderlyRunsOverpayNothing(start, steps, end);
    var released := WithdrawSucceedsIff(end, q, user, Some([b]));
    assert Ids([b]) == {b};
    OwedOnOne(end.hub.waitList, released.history, user, b);
  }

  lemma PassReachesMatured(w: World, b: nat)
    requires Sound(w) && w.hub.currentBatch.id > 0
    requires Unreleased(w.hub.currentBatch, w.hub.history, w.hub.state.lastProcessedBatch)
          <= Spendable(w) + w.chain.unbonding + QueuedUnstake(w.chain.queue)
    requires MaturedBatch(w, b) && OutForLater(w, b)
    ensures EnvOf(w.chain).time >= w.hub.params.unstakingPeriod
    ensures b in PassedLedger(w).history
    ensures PassedLedger(w).history[b] == w.hub.history[b].(released := true)
  {
    hide Solvent, Tracks, RateCovered, CostUpTo, ReleasePass, Cost, RecordOk;
    var l := w.hub;
    var processed := l.state.lastProcessedBatch;
    var cutoff := EnvOf(w.chain).time - l.params.unstakingPeriod;
    var last := ReleasePass(l.history, processed + 1, cutoff, Spendable(w)).0;
    PassReleasesLongestPrefix(l.history, processed, cutoff, Spendable(w));
    ReleasedUpTo(l.currentBatch, l.waitList, l.history, processed, l.state.lastUnbondedTime, b);
    if b > processed {
      MaturedPrefix(l.currentBatch, l.waitList, l.history, processed, l.state.lastUnbondedTime, b, cutoff);
      CostGrows(l.history, processed, b, l.currentBatch.id - 1);
      assert Affordable(l.history, processed, b, cutoff, Spendable(w));
    }
    assert b <= last;
  }

  lemma ReleasedUpTo(batch: CurrentBatch, waitList: WaitList, history: History, processed: nat, lastUnbonded: nat,
                     b: nat)
    requires Structured(batch, waitList, history, processed, lastUnbonded) && b in history
    ensures history[b].released <==> b <= processed
  {
  }

  /** Batches before a matured one have matured. */
  lemma MaturedPrefix(batch: CurrentBatch, waitList: WaitList, history: History, processed: nat, lastUnbonded: nat,
                      b: nat, cutoff: nat)
    requires Structured(batch, waitList, history, processed, lastUnbonded)
    requires b in history && history[b].time <= cutoff && processed < b
    ensures b < batch.id && forall c | processed < c <= b :: Releasable(history, c, cutoff)
  {
    forall c | processed < c <= b ensures Releasable(history, c, cutoff) {
      assert c in history;
      ReleasedUpTo(batch, waitList, history, processed, lastUnbonded, c);
    }
  }
}
