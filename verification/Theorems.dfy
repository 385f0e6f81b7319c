/** What the invariants of `Runs`, `SlashFreeRuns` and `CalmRuns` mean for whole runs. */
module Theorems {
  import opened Wrappers
  import opened Sums
  import opened FixedPoint
  import opened Delegation
  import opened PendingEpoch
  import opened HubTypes
  import opened Claims
  import opened Release
  import opened Handlers
  import opened Slashing
  import opened World
  import opened Batches
  import opened Runs
  import opened Reachable
  import opened SlashFreeRuns
  import opened CalmRuns

  // ---------------------------------------------------------------- the chain's epochs are fixed

  lemma {:induction false} DeliverKeepsEpochs(w: World, q: Queries, messages: seq<Message>)
    requires Deliver(w, q, messages).Ok?
    ensures var after := Deliver(w, q, messages).value;
            after.chain.epochLength == w.chain.epochLength && after.chain.epochOrigin == w.chain.epochOrigin
  {
    hide Execute;
    if messages != [] {
      DeliverKeepsEpochs(w, q, messages[..|messages| - 1]);
    }
  }

  lemma NextKeepsEpochs(w: World, step: Step)
    requires Possible(w, step) && w.chain.epochLength > 0 && w.chain.epochOrigin <= w.chain.height
    ensures Next(w, step).chain.epochLength == w.chain.epochLength
  {
    hide Execute, Booked, Possible;
    match step
    case Tx(q, info, msg) =>
      var o := Execute(w.hub, EnvOf(w.chain), q, info, msg);
      if o.Ok? {
        var mid := World(o.value.ledger, Funded(w, info), Booked(w, q, info, msg, o.value.ledger));
        if Deliver(mid, q, o.value.messages).Ok? {
          DeliverKeepsEpochs(mid, q, o.value.messages);
        }
      }
    case NextBlock(passed) => DrainKeepsClock(w.chain, w.chain.queue);
    case _ =>
  }

  // ---------------------------------------------------------------- slash-free runs

  /** No step slashes. */
  ghost predicate NoSlash(steps: seq<Step>) { forall s | s in steps :: !s.Slash? }

  /** Steps other than slashes keep a slash-free world slash-free. */
  lemma {:induction false} RunKeepsSlashFree(start: World, steps: seq<Step>, end: World)
    requires SlashFree(start) && Run(start, steps, end) && NoSlash(steps)
    ensures SlashFree(end)
    decreases |steps|
  {
    hide SlashFree, Next, Possible;
    if steps != [] {
      var n := |steps| - 1;
      var mid :| Run(start, steps[..n], mid)
                 && mid.chain.epochLength > 0 && mid.chain.epochOrigin <= mid.chain.height
                 && Possible(mid, steps[n])
                 && end == Next(mid, steps[n]);
      RunKeepsSlashFree(start, steps[..n], mid);
      assert steps[n] in steps;
      StepKeepsSlashFree(mid, steps[n]);
    }
  }

  lemma ReachableIsSlashFree(start: World, steps: seq<Step>, end: World)
    requires Start(start) && Run(start, steps, end) && NoSlash(steps)
    ensures SlashFree(end)
  {
    hide Start, SlashFree, Run, NoSlash;
    StartIsSlashFree(start);
    RunKeepsSlashFree(start, steps, end);
  }

  /** In every state of every run without slashing: the hub counts no more than the chain holds and has
      queued, a slashing check leaves its total as it is or fails, and fails exactly if the chain holds
      something and the total is below the queued stake; nothing was ever written off, and
      the rate is at least 1 with all tokens worth no more than the total. */
  lemma SlashFreeTotals(start: World, steps: seq<Step>, end: World, q: Queries)
    requires Start(start) && Run(start, steps, end) && NoSlash(steps)
    requires Sees(end.chain, end.hub.params.stakingCoinDenom, q, end.chain.bank)
    ensures end.hub.state.totalStakedAmount + QueuedUnstake(end.chain.queue)
         <= SumValues(end.chain.delegated) + QueuedStake(end.chain.queue)
    ensures var checked := SlashingChecked(end.hub, EnvOf(end.chain), q);
            && (checked.Ok? ==> checked.value.state.totalStakedAmount == end.hub.state.totalStakedAmount)
            && (checked.Err? <==> SumValues(end.chain.delegated) > 0
                                  && end.hub.state.totalStakedAmount < QueuedStake(end.chain.queue))
    ensures end.books.writtenOff == 0
    ensures end.hub.state.lstExchangeRate >= ONE
    ensures end.hub.state.lstExchangeRate * Tokens(end) <= end.hub.state.totalStakedAmount * ONE
  {
    hide Run, Start, NoSlash, Sound, Sees, Tokens, CheckedState;
    ReachableIsSlashFree(start, steps, end);
    SlashFreeChecks(end, q);
  }

  lemma SlashFreeChecks(w: World, q: Queries)
    requires SlashFree(w)
    requires Sees(w.chain, w.hub.params.stakingCoinDenom, q, w.chain.bank)
    ensures CheckedState(w.hub, EnvOf(w.chain), q).Ok? ==>
              CheckedState(w.hub, EnvOf(w.chain), q).value.totalStakedAmount == w.hub.state.totalStakedAmount
    ensures CheckedState(w.hub, EnvOf(w.chain), q).Err?
       <==> SumValues(w.chain.delegated) > 0 && w.hub.state.totalStakedAmount < QueuedStake(w.chain.queue)
  {
    hide SoundFor, SlashFreeFor, CheckedState, Sees;
    CheckFailsIff(w, w.hub.currentBatch, q, Tokens(w), w.chain.bank);
    if CheckedState(w.hub, EnvOf(w.chain), q).Ok? {
      SeesOwnBalance(w, q);
      SeesSupply(w, q);
      CheckKeepsSlashFree(w, w.hub.currentBatch, q, CheckedState(w.hub, EnvOf(w.chain), q).value);
    }
  }

  lemma SeesSupply(w: World, q: Queries)
    requires Sees(w.chain, w.hub.params.stakingCoinDenom, q, w.chain.bank)
    ensures q.supply == w.chain.supply
  {
  }

  /** In every state of every run without slashing, every coin ever staked, as a deposit or a restaked
      reward, is staked, due to a batch not yet released, set aside, or paid out. */
  lemma SlashFreeConservation(start: World, steps: seq<Step>, end: World)
    requires Start(start) && Run(start, steps, end) && NoSlash(steps)
    ensures end.hub.currentBatch.id > 0
    ensures end.hub.state.totalStakedAmount
            + Unreleased(end.hub.currentBatch, end.hub.history, end.hub.state.lastProcessedBatch)
            + end.hub.state.unclaimedUnstakedBalance + end.books.paidOut
         == end.books.deposited
  {
    ReachableIsSlashFree(start, steps, end);
    hide Run, Start, NoSlash, Solvent, RateCovered, Unreleased, Tracks, WithinReach;
  }

  /** A run without slashing in which there are tokens at every state. */
  ghost predicate HeldRun(start: World, steps: seq<Step>, end: World)
    decreases |steps|
  {
    && Tokens(end) > 0
    && if steps == [] then end == start
       else
         var n := |steps| - 1;
         exists mid ::
           && HeldRun(start, steps[..n], mid)
           && mid.chain.epochLength > 0 && mid.chain.epochOrigin <= mid.chain.height
           && Possible(mid, steps[n]) && !steps[n].Slash?
           && end == Next(mid, steps[n])
  }

  /** While there are tokens, the rate of a run without slashing only grows. */
  lemma {:induction false} RateNeverFalls(start: World, steps: seq<Step>, end: World)
    requires SlashFree(start) && HeldRun(start, steps, end)
    ensures SlashFree(end) && Tokens(end) > 0
    ensures start.hub.state.lstExchangeRate <= end.hub.state.lstExchangeRate
    decreases |steps|
  {
    hide SlashFree, Next, Possible;
    if steps != [] {
      var n := |steps| - 1;
      var mid :| HeldRun(start, steps[..n], mid)
                 && mid.chain.epochLength > 0 && mid.chain.epochOrigin <= mid.chain.height
                 && Possible(mid, steps[n]) && !steps[n].Slash?
                 && end == Next(mid, steps[n]);
      RateNeverFalls(start, steps[..n], mid);
      StepKeepsSlashFree(mid, steps[n]);
    }
  }

  // ---------------------------------------------------------------- calm runs

  /** Every state of a calm run is calm. */
  lemma {:induction false} ReachableIsCalm(start: World, steps: seq<Step>, end: World)
    requires Start(start) && Run(start, steps, end)
    requires forall s | s in steps :: CalmStep(start.chain.epochLength, s)
    ensures Calm(end) && end.chain.epochLength == start.chain.epochLength
    decreases |steps|
  {
    hide Start, Calm, CalmStep, Next, Possible;
    if steps == [] {
      StartIsCalm(start);
    } else {
      var n := |steps| - 1;
      var mid :| Run(start, steps[..n], mid)
                 && mid.chain.epochLength > 0 && mid.chain.epochOrigin <= mid.chain.height
                 && Possible(mid, steps[n])
                 && end == Next(mid, steps[n]);
      ReachableIsCalm(start, steps[..n], mid);
      assert steps[n] in steps;
      StepKeepsCalm(mid, steps[n]);
      NextKeepsEpochs(mid, steps[n]);
    }
  }

  /** In every state of a calm run the hub's total is exactly what the chain holds and has queued, and a
      slashing check succeeds. */
  lemma CalmTotals(start: World, steps: seq<Step>, end: World, q: Queries)
    requires Start(start) && Run(start, steps, end)
    requires forall s | s in steps :: CalmStep(start.chain.epochLength, s)
    requires Sees(end.chain, end.hub.params.stakingCoinDenom, q, end.chain.bank)
    ensures end.hub.state.totalStakedAmount
         == SumValues(end.chain.delegated) + QueuedStake(end.chain.queue) - QueuedUnstake(end.chain.queue)
    ensures GetPending(end.hub.pending, end.chain.height)
         == Ok((QueuedStake(end.chain.queue), QueuedUnstake(end.chain.queue)))
    ensures SlashingChecked(end.hub, EnvOf(end.chain), q).Ok?
  {
    hide Run, Start, CalmStep, SlashFreeFor, Sees, SoundFor, CheckedState, GetPending, Covered, Paced;
    ReachableIsCalm(start, steps, end);
    SeesOwnBalance(end, q);
    SeesSupply(end, q);
    var st := CheckSucceeds(end, end.hub.currentBatch, q, Tokens(end));
    TracksOf(end, Tokens(end));
  }

  lemma TracksOf(w: World, tokens: nat)
    requires SoundFor(w, tokens)
    ensures GetPending(w.hub.pending, w.chain.height) == Ok((QueuedStake(w.chain.queue), QueuedUnstake(w.chain.queue)))
  {
    hide Structured, Solvent, RateCovered, Unreleased, GetPending, StartsEpoch;
  }

  /** A batch undelegated on pace finds nothing of an earlier batch queued, and its own amount is all that
      is queued to be unstaked after it. */
  lemma OneBatchPerEpoch(w: World, stored: CurrentBatch, q: Queries, tokens: nat, o: Outcome)
    requires SoundFor(w, tokens) && OnPace(w)
    requires BatchEpochChecked(w.hub.(currentBatch := stored), w.hub.currentBatch, EnvOf(w.chain), q) == Ok(o)
    requires o.ledger.currentBatch.id != w.hub.currentBatch.id
    ensures QueuedUnstake(w.chain.queue) == 0
    ensures w.chain.epochLength > 0 && w.chain.epochOrigin <= w.chain.height
    ensures LaterEpoch(w)
    ensures w.hub.currentBatch.id in o.ledger.history
    ensures GetPending(o.ledger.pending, w.chain.height)
         == Ok((QueuedStake(w.chain.queue), Cost(o.ledger.history[w.hub.currentBatch.id])))
  {
    hide ActualState, BatchEpochChecked, BatchProcessed, UpdatePending, Structured, Solvent, RateCovered,
         Undelegations, Unreleased, Covered, Paced;
    var l, batch, env := w.hub.(currentBatch := stored), w.hub.currentBatch, EnvOf(w.chain);
    var o1, st := BatchEpochEffect(l, batch, env, q);
    var o2, unstaked := BatchProcessedEffect(l.(state := st), batch, env, q);
    BatchesInSeparateEpochs(w.chain, l.params.epochLength, st.lastUnbondedTime, w.books.lastBatchHeight);
    UpdateAddsToReading(l.pending, w.chain.epochOrigin, w.chain.height, 0, unstaked);
    PacedAfterOrigin(w);
  }

  /** The last batch was undelegated in an earlier staking epoch. */
  ghost predicate LaterEpoch(w: World)
    requires w.chain.epochLength > 0 && w.chain.epochOrigin <= w.chain.height
  {
    var c := w.chain;
    w.books.lastBatchHeight.Some? ==>
      && c.epochOrigin <= w.books.lastBatchHeight.value
      && Epoch(c.epochOrigin, c.epochLength, w.books.lastBatchHeight.value)
         < Epoch(c.epochOrigin, c.epochLength, c.height)
  }

  lemma PacedAfterOrigin(w: World)
    requires w.chain.epochLength > 0 && w.chain.epochOrigin <= w.chain.height
    requires Paced(w.hub.state.lastUnbondedTime, w.books.lastBatchHeight, w.chain)
    ensures w.books.lastBatchHeight.Some? ==> w.chain.epochOrigin <= w.books.lastBatchHeight.value
  {
  }

  /** In a calm run an unstake or a processing of undelegations that undelegates a batch does so in a
      later staking epoch than the batch before, and finds nothing queued to be unstaked. */
  lemma BatchesNeverMeet(start: World, steps: seq<Step>, end: World, q: Queries, info: Info, msg: ExecuteMsg)
    requires Start(start) && Run(start, steps, end)
    requires forall s | s in steps :: CalmStep(start.chain.epochLength, s)
    requires Possible(end, Tx(q, info, msg)) && (IsUnstake(msg) || msg.ProcessUndelegations?)
    requires Transact(end, q, info, msg).Ok?
    requires Transact(end, q, info, msg).value.hub.currentBatch.id != end.hub.currentBatch.id
    ensures QueuedUnstake(end.chain.queue) == 0
    ensures end.chain.epochLength > 0 && end.chain.epochOrigin <= end.chain.height && LaterEpoch(end)
  {
    hide Run, Start, CalmStep, Transact, SoundFor, SlashFreeFor, OnPace, BatchEpochChecked, BurnTokens, Recorded, Sees;
    ReachableIsCalm(start, steps, end);
    KeepsApartOf(end);
    if IsUnstake(msg) {
      var o, mid, tokens := UnstakeBeforeBurn(end, q, info, msg);
      RecordedIsSlashFree(end, q, info, msg);
      RecordedOnPace(end, info, msg);
      BurnKeepsSlashFree(mid, q, UnstakeAmount(msg), tokens);
      OneBatchPerEpoch(RecordedWorld(end, info, msg), end.hub.currentBatch, q, Tokens(end), o);
    } else if end.hub.currentBatch.requestedLstTokenAmount == 0 {
      NothingUndelegated(end, q, info, msg);
    } else {
      var o, after := UndelegationsBooks(end, q, info, msg);
      PaceIgnoresCoins(end, Arrived(end, info));
      OneBatchPerEpoch(Arrived(end, info), end.hub.currentBatch, q, Tokens(end), o);
    }
  }

  // ---------------------------------------------------------------- the rate denominator

  /** The state `after` is `before`, or its rate was refreshed over `tokens` tokens. */
  ghost predicate CountedOver(before: State, after: State, tokens: nat) {
    after == before || after == after.UpdateLstExchangeRate(tokens, 0)
  }

  lemma CheckCounts(l: Ledger, env: Env, q: Queries)
    requires CheckedState(l, env, q).Ok?
    ensures CountedOver(l.state, CheckedState(l, env, q).value, q.supply + l.currentBatch.requestedLstTokenAmount)
  {
    if q.delegations != [] {
      CheckTakesMinimum(l.state, l.params.stakingCoinDenom, l.currentBatch.requestedLstTokenAmount, l.pending, env, q);
    }
  }

  /** An unstake leaves the tokens the rate is counted over as they were, burn and all; when it undelegates
      the batch they fall by exactly the batch. The slashing check before the epoch check counts the tokens
      from before, although the batch in memory already has the request; the check after the burn counts
      those from after. No request is counted twice or missed. */
  lemma UnstakeKeepsDenominator(w: World, q: Queries, info: Info, msg: ExecuteMsg)
    returns (checked: State, unburnt: State)
    requires Possible(w, Tx(q, info, msg)) && IsUnstake(msg)
    requires Transact(w, q, info, msg).Ok?
    ensures CheckedState(RecordedLedger(w.hub, UnstakeUser(info, msg), UnstakeAmount(msg)), EnvOf(w.chain), q)
            == Ok(checked)
    ensures CountedOver(w.hub.state, checked, Tokens(w))
    ensures var after := Transact(w, q, info, msg).value;
            && CountedOver(unburnt, after.hub.state, Tokens(after))
            && if after.hub.currentBatch.id == w.hub.currentBatch.id
               then unburnt == checked && Tokens(after) == Tokens(w)
               else
                 && unburnt.lstExchangeRate == checked.lstExchangeRate
                 && Tokens(after) == Tokens(w) - (w.hub.currentBatch.requestedLstTokenAmount + UnstakeAmount(msg))
  {
    hide Transact, BatchEpochChecked, BatchProcessed, Recorded, CheckedState, UpdatePending, DecimalMultiplication,
         Undelegations, BurnTokens, Booked, CountedOver, Sees, UndelegateMessages, QueuedStake, QueuedUnstake,
         SumOfDenom;
    var l := w.hub;
    SeesArrived(w, q, info);
    var recorded, batch := RecordedLedger(l, UnstakeUser(info, msg), UnstakeAmount(msg)),
      RecordedBatch(l, UnstakeAmount(msg));
    var o, mid := UnstakeChecked(w, q, info, msg);
    var o1, st := BatchEpochEffect(recorded, batch, EnvOf(w.chain), q);
    checked, unburnt := st, o.ledger.state;
    CheckCounts(recorded, EnvOf(w.chain), q);
    if EnvOf(w.chain).time - st.lastUnbondedTime > l.params.epochLength {
      var o2, unstaked := BatchProcessedEffect(recorded.(state := st), batch, EnvOf(w.chain), q);
    }
    BurnCounts(mid, q, UnstakeAmount(msg));
  }

  lemma BurnCounts(w: World, q: Queries, amount: nat)
    requires BurnTokens(w, q, amount).Ok?
    ensures var after := BurnTokens(w, q, amount).value;
            && amount <= w.chain.supply && after.chain.supply == w.chain.supply - amount
            && after.hub.currentBatch == w.hub.currentBatch
            && CountedOver(w.hub.state, after.hub.state, Tokens(after))
  {
    hide CheckedState, LoweredByCheck, CountedOver;
    CheckCounts(w.hub, EnvOf(w.chain), q.(supply := w.chain.supply - amount));
  }

  // ---------------------------------------------------------------- claims

  /** The withdrawal lists no batch twice. */
  ghost predicate OrderlyStep(step: Step) {
    step.Tx? && step.msg.WithdrawUnstakedForBatches? ==>
      forall i, j | 0 <= i < j < |step.msg.batchIds| :: step.msg.batchIds[i] != step.msg.batchIds[j]
  }

  /** Without a list, a withdrawal asks for all the user waits for. */
  lemma AllAreAsked(l: Ledger, user: Addr)
    ensures forall b :: b in AskedBatches(l, user, None) <==> (user, b) in l.waitList
  {
    var batches := UserBatches(l.waitList, user);
    AscendingLists(batches);
    forall b ensures b in AskedBatches(l, user, None) <==> (user, b) in l.waitList {
      assert b in Ids(Ascending(batches)) <==> b in batches;
    }
  }

  lemma OrderlyIdsPayWhatIsOwed(l: Ledger, history: History, user: Addr, ids: Option<seq<nat>>)
    requires ids.Some? ==> forall i, j | 0 <= i < j < |ids.value| :: ids.value[i] != ids.value[j]
    ensures Repeated(l.waitList, history, user, AskedBatches(l, user, ids)) == 0
  {
    AscendingLists(UserBatches(l.waitList, user));
    RepeatedIsZero(l.waitList, history, user, AskedBatches(l, user, ids));
  }

  lemma {:induction false} DeliverKeepsOverpaid(w: World, q: Queries, messages: seq<Message>)
    requires Deliver(w, q, messages).Ok?
    ensures Deliver(w, q, messages).value.books.overpaid == w.books.overpaid
  {
    hide Execute, LoweredByCheck;
    if messages != [] {
      DeliverKeepsOverpaid(w, q, messages[..|messages| - 1]);
    }
  }

  lemma StepKeepsOverpaid(w: World, step: Step)
    requires Possible(w, step) && OrderlyStep(step)
    requires w.chain.epochLength > 0 && w.chain.epochOrigin <= w.chain.height
    ensures Next(w, step).books.overpaid == w.books.overpaid
  {
    hide Execute, Possible, LoweredByCheck, ReleaseDust, Repeated, AskedBatches, Deliver;
    match step
    case Tx(q, info, msg) =>
      var o := Execute(w.hub, EnvOf(w.chain), q, info, msg);
      if o.Ok? {
        var mid := World(o.value.ledger, Funded(w, info), Booked(w, q, info, msg, o.value.ledger));
        if Deliver(mid, q, o.value.messages).Ok? {
          DeliverKeepsOverpaid(mid, q, o.value.messages);
        }
        if IsWithdraw(msg) {
          OrderlyIdsPayWhatIsOwed(w.hub, o.value.ledger.history, info.sender, AskedIds(msg));
          AskedForIds(w.hub, info.sender, msg);
        }
      }
    case _ =>
  }

  lemma AskedForIds(l: Ledger, user: Addr, msg: ExecuteMsg)
    requires IsWithdraw(msg)
    ensures AskedBatches(l, user, AskedIds(msg))
         == if msg.WithdrawUnstaked? then AskedBatches(l, user, None) else msg.batchIds
  {
  }

  lemma {:induction false} OrderlyRunsOverpayNothing(start: World, steps: seq<Step>, end: World)
    requires Start(start) && Run(start, steps, end)
    requires forall s | s in steps :: OrderlyStep(s)
    ensures end.books.overpaid == 0
    decreases |steps|
  {
    hide OrderlyStep, Next, Possible;
    if steps != [] {
      var n := |steps| - 1;
      var mid :| Run(start, steps[..n], mid)
                 && mid.chain.epochLength > 0 && mid.chain.epochOrigin <= mid.chain.height
                 && Possible(mid, steps[n])
                 && end == Next(mid, steps[n]);
      OrderlyRunsOverpayNothing(start, steps[..n], mid);
      assert steps[n] in steps;
      StepKeepsOverpaid(mid, steps[n]);
    }
  }

  /** In every state of every run in which no withdrawal lists a batch twice, slashing included: the
      coins set aside cover every open claim on a released batch, exceed them by no more than the
      rounding allowance, and are in the bank beside the coins waiting to be delegated. */
  lemma ReachableIsSolvent(start: World, steps: seq<Step>, end: World)
    requires Start(start) && Run(start, steps, end)
    requires forall s | s in steps :: OrderlyStep(s)
    ensures TotalClaims(end.hub.waitList, end.hub.history)
         <= end.hub.state.unclaimedUnstakedBalance
         <= TotalClaims(end.hub.waitList, end.hub.history) + end.books.dust
    ensures QueuedStake(end.chain.queue) + end.hub.state.unclaimedUnstakedBalance <= end.chain.bank
  {
    OrderlyRunsOverpayNothing(start, steps, end);
    ReachableIsSound(start, steps, end);
    hide Run, Start, OrderlyStep, Structured, Tracks, RateCovered, Unreleased, TotalClaims;
  }

  /** In a sound world a withdrawal, whatever batches it lists, succeeds exactly if the unstaking period can
      have passed and what it finishes is positive and set aside, once the pass has released what it can. It
      finishes what the user is owed on those batches and, once more for each time a batch is listed again,
      its claim; that is what is owed exactly if no batch with a positive claim is listed twice. */
  lemma WithdrawOutcome(w: World, q: Queries, user: Addr, ids: Option<seq<nat>>) returns (released: Ledger)
    requires Sound(w) && q.balance == w.chain.bank
    ensures var r := Withdrawn(w.hub, EnvOf(w.chain), q, user, ids);
            var asked := AskedBatches(w.hub, user, ids);
            var owed := Owed(w.hub.waitList, released.history, user, Ids(asked));
            var again := Repeated(w.hub.waitList, released.history, user, asked);
            var due := EnvOf(w.chain).time >= w.hub.params.unstakingPeriod;
            && (r.Ok? <==> due && 0 < owed + again <= released.state.unclaimedUnstakedBalance)
            && (r.Ok? ==> r.value.messages == [Send(user, owed + again)])
            && (due && owed + again == 0 ==> r == Err(NoWithdrawableAssets))
            && (due && owed + again > released.state.unclaimedUnstakedBalance ==> r == Err(Overflow))
            && (again == 0 <==> NoRepeatedClaim(w.hub.waitList, released.history, user, asked))
    ensures var r := Withdrawn(w.hub, EnvOf(w.chain), q, user, ids);
            var again := Repeated(w.hub.waitList, released.history, user, AskedBatches(w.hub, user, ids));
            r.Ok? ==> Shortfall(r.value.ledger) == Shortfall(released) + again
    ensures EnvOf(w.chain).time >= w.hub.params.unstakingPeriod ==> released == PassedLedger(w)
  {
    hide SoundFor, WithdrawRateProcessed, MarkReleased, Affordable, CostUpTo, Finished, ListedEntries, Without,
         UserBatches, Ascending, Repeated, Owed, ReleasePass, Ids, Withdrawn, ReleaseDust, ReleasedLedger, AskedBatches,
         TotalClaims, NoRepeatedClaim;
    released := w.hub;
    var env := EnvOf(w.chain);
    var asked := AskedBatches(w.hub, user, ids);
    if env.time >= w.hub.params.unstakingPeriod {
      var cutoff := env.time - w.hub.params.unstakingPeriod;
      var last, left := ReleaseEffect(w, q, cutoff);
      released := ReleasedLedger(w.hub, last);
      ReleasedHistory(w.hub, last);
      WithdrawnOutcome(w, q, user, ids, last, left);
      FinishedIsOwedAndRepeated(w.hub.waitList, released.history, user, asked);
      FinishedBatches(w.hub.waitList, released.history, user, asked);
    } else {
      TooEarly(w, q, user, ids);
    }
    RepeatedIsZero(w.hub.waitList, released.history, user, asked);
  }

  /** The ledger once the pass of a withdrawal has released what it can. */
  ghost function PassedLedger(w: World): Ledger
    requires EnvOf(w.chain).time >= w.hub.params.unstakingPeriod
  {
    var balance := w.chain.bank - QueuedStake(w.chain.queue) - w.hub.state.unclaimedUnstakedBalance;
    if balance < 0 then w.hub
    else
      ReleasedLedger(w.hub, ReleasePass(w.hub.history, w.hub.state.lastProcessedBatch + 1,
                                        EnvOf(w.chain).time - w.hub.params.unstakingPeriod, balance).0)
  }

  /** In a sound world a processing of withdraw requests fails exactly if the unstaking period cannot have passed yet,
      and otherwise releases what a withdrawal's own pass would, with nothing sent. */
  lemma RequestsAreProcessed(w: World, q: Queries)
    requires Sound(w) && q.balance == w.chain.bank
    ensures WithdrawRequestsProcessed(w.hub, EnvOf(w.chain), q)
         == if EnvOf(w.chain).time < w.hub.params.unstakingPeriod then Err(Panic)
            else Ok(Outcome(PassedLedger(w), []))
  {
    hide SoundFor, WithdrawRateProcessed, MarkReleased, Affordable, CostUpTo, ReleasePass, FreeBalance;
    if EnvOf(w.chain).time >= w.hub.params.unstakingPeriod {
      var last, left := ReleaseEffect(w, q, EnvOf(w.chain).time - w.hub.params.unstakingPeriod);
    }
  }

  /** By how much the open claims on released batches exceed the coins set aside for them. */
  ghost function Shortfall(l: Ledger): int {
    TotalClaims(l.waitList, l.history) - l.state.unclaimedUnstakedBalance
  }

  /** Clearing what is finished for a list of ids closes exactly the claims owed on them. */
  lemma FinishedBatches(waitList: WaitList, history: History, user: Addr, ids: seq<nat>)
    ensures var batches := Finished(history, ListedEntries(waitList, user, ids)).1;
            TotalClaims(Without(waitList, user, batches), history)
            == TotalClaims(waitList, history) - Owed(waitList, history, user, Ids(ids))
  {
    hide TotalClaims, Owed, Repeated, Finished, ListedEntries, Without;
    FinishedIsOwedAndRepeated(waitList, history, user, ids);
    WithoutClaims(waitList, history, user, Ids(ids), Finished(history, ListedEntries(waitList, user, ids)).1);
  }

  /** In a sound world in which nothing was overpaid, a withdrawal that lists no batch twice succeeds
      exactly if the unstaking period can have passed and the user is owed something on the batches
      it asks for, once the pass has released what it can; it is then paid that, to the coin. Users
      can withdraw in any order, as each leaves such a world. */
  lemma WithdrawSucceedsIff(w: World, q: Queries, user: Addr, ids: Option<seq<nat>>) returns (released: Ledger)
    requires Sound(w) && w.books.overpaid == 0
    requires q.balance == w.chain.bank
    requires ids.Some? ==> forall i, j | 0 <= i < j < |ids.value| :: ids.value[i] != ids.value[j]
    ensures var r := Withdrawn(w.hub, EnvOf(w.chain), q, user, ids);
            var owed := Owed(w.hub.waitList, released.history, user, Ids(AskedBatches(w.hub, user, ids)));
            var due := EnvOf(w.chain).time >= w.hub.params.unstakingPeriod;
            && (r.Ok? <==> due && owed > 0)
            && (r.Ok? ==> r.value.messages == [Send(user, owed)])
            && (due && owed == 0 ==> r == Err(NoWithdrawableAssets))
    ensures ids.None? ==> forall b :: b in AskedBatches(w.hub, user, ids) <==> (user, b) in w.hub.waitList
    ensures EnvOf(w.chain).time >= w.hub.params.unstakingPeriod ==> released == PassedLedger(w)
  {
    hide SoundFor, Repeated, Owed, Ids, Withdrawn, AskedBatches, NoRepeatedClaim, PassedLedger, TotalClaims;
    AllAreAsked(w.hub, user);
    released := WithdrawOutcome(w, q, user, ids);
    OrderlyIdsPayWhatIsOwed(w.hub, released.history, user, ids);
    if EnvOf(w.chain).time >= w.hub.params.unstakingPeriod {
      OwedIsSetAside(w, q, user, AskedBatches(w.hub, user, ids));
    }
  }

  /** Once a pass has released what it can, what a user is owed on any batches is set aside. */
  lemma OwedIsSetAside(w: World, q: Queries, user: Addr, ids: seq<nat>)
    requires Sound(w) && w.books.overpaid == 0 && q.balance == w.chain.bank
    requires EnvOf(w.chain).time >= w.hub.params.unstakingPeriod
    ensures Owed(w.hub.waitList, PassedLedger(w).history, user, Ids(ids))
         <= PassedLedger(w).state.unclaimedUnstakedBalance
  {
    hide SoundFor, Affordable, ReleasePass, ReleasedLedger, ReleaseDust, MarkReleased, CostUpTo, Owed, Ids;
    var cutoff := EnvOf(w.chain).time - w.hub.params.unstakingPeriod;
    var last, left := ReleaseEffect(w, q, cutoff);
    var mid := ReleaseIsSound(w, last, cutoff);
    ReleasedHistory(w.hub, last);
    ClaimsAreSetAside(mid, user, ids);
  }

  lemma ClaimsAreSetAside(w: World, user: Addr, ids: seq<nat>)
    requires Sound(w) && w.books.overpaid == 0
    ensures Owed(w.hub.waitList, w.hub.history, user, Ids(ids)) <= w.hub.state.unclaimedUnstakedBalance
  {
    hide Structured, Tracks, RateCovered, Unreleased, TotalClaims, Owed, Finished, ListedEntries, Without, Repeated;
    var batches := Finished(w.hub.history, ListedEntries(w.hub.waitList, user, ids)).1;
    FinishedIsOwedAndRepeated(w.hub.waitList, w.hub.history, user, ids);
    WithoutClaims(w.hub.waitList, w.hub.history, user, Ids(ids), batches);
  }

  lemma TooEarly(w: World, q: Queries, user: Addr, ids: Option<seq<nat>>)
    requires EnvOf(w.chain).time < w.hub.params.unstakingPeriod
    ensures Withdrawn(w.hub, EnvOf(w.chain), q, user, ids) == Err(Panic)
  {
  }

  lemma ReleasedHistory(l: Ledger, last: nat)
    ensures ReleasedLedger(l, last).history == MarkReleased(l.history, l.state.lastProcessedBatch, last)
    ensures ReleasedLedger(l, last).waitList == l.waitList
    ensures ReleasedLedger(l, last).state.lastProcessedBatch == last
  {
  }

  /** A withdrawal after its release: nothing to pay, a payout, or a payout beyond what is set aside. */
  lemma WithdrawnOutcome(w: World, q: Queries, user: Addr, ids: Option<seq<nat>>, last: nat, left: nat)
    requires EnvOf(w.chain).time >= w.hub.params.unstakingPeriod
    requires QueuedStake(w.chain.queue) <= w.chain.bank
    requires FreeBalance(w.hub, EnvOf(w.chain), q) == Ok(w.chain.bank - QueuedStake(w.chain.queue))
    requires var released := ReleasedLedger(w.hub, last);
             WithdrawRateProcessed(w.hub, EnvOf(w.chain).time - w.hub.params.unstakingPeriod,
                                   w.chain.bank - QueuedStake(w.chain.queue))
             == Ok((released.(state := released.state.(
                                 unclaimedUnstakedBalance := w.hub.state.unclaimedUnstakedBalance)), left))
    requires left == w.chain.bank - QueuedStake(w.chain.queue) - ReleasedLedger(w.hub,
                                                                                last).state.unclaimedUnstakedBalance
    ensures var released := ReleasedLedger(w.hub, last);
            var amount := Finished(released.history,
                                   ListedEntries(released.waitList, user, AskedBatches(w.hub, user, ids))).0;
            var r := Withdrawn(w.hub, EnvOf(w.chain), q, user, ids);
            && (amount == 0 ==> r == Err(NoWithdrawableAssets))
            && (amount > released.state.unclaimedUnstakedBalance ==> r == Err(Overflow))
            && (r.Ok? <==> 0 < amount <= released.state.unclaimedUnstakedBalance)
            && (r.Ok? ==>
                  && r.value.messages == [Send(user, amount)]
                  && r.value.ledger.history == released.history
                  && r.value.ledger.waitList
                     == Without(released.waitList, user,
                                Finished(released.history,
                                         ListedEntries(released.waitList, user, AskedBatches(w.hub, user, ids))).1)
                  && r.value.ledger.state.unclaimedUnstakedBalance == released.state.unclaimedUnstakedBalance - amount)
  {
    hide WithdrawRateProcessed, MarkReleased, CostUpTo, Finished, ListedEntries, Without, UserBatches, Ascending,
         FreeBalance;
  }
}
