/** What a user asked for over a whole run is what the wait list says, and what is paid: no request is lost, booked
    for another, or paid twice (contracts/lst_staking_hub/src/unstake.rs, update_unstake_batch_wait_list;
    contracts/lst_staking_hub/src/state.rs, remove_unstake_wait_list). */
module RequestRuns {
  import opened Wrappers
  import opened FixedPoint
  import opened Delegation
  import opened PendingEpoch
  import opened HubTypes
  import opened Claims
  import opened Release
  import opened Handlers
  import opened Slashing
  import opened World
  import opened Batches
  import opened Runs
  import opened Reachable
  import opened Theorems
  import opened BackedReleases

  // ---------------------------------------------------------------- runs with their states

  ghost predicate StepsTo(w: World, step: Step, after: World) {
    && w.chain.epochLength > 0 && w.chain.epochOrigin <= w.chain.height
    && Possible(w, step) && after == Next(w, step)
  }

  /** Step `i` takes state `i` to state `i + 1`. */
  ghost predicate Trace(worlds: seq<World>, steps: seq<Step>) {
    && |worlds| > |steps|
    && forall i | 0 <= i < |steps| :: StepsTo(worlds[i], steps[i], worlds[i + 1])
  }

  lemma {:induction false} TraceIsRun(worlds: seq<World>, steps: seq<Step>)
    requires Trace(worlds, steps)
    ensures Run(worlds[0], steps, worlds[|steps|])
    decreases |steps|
  {
    if steps != [] {
      var n := |steps| - 1;
      hide Next, Possible;
      assert StepsTo(worlds[n], steps[n], worlds[n + 1]);
      TraceIsRun(worlds, steps[..n]);
    }
  }

  /** Every run has its states. */
  lemma {:induction false} RunHasTrace(start: World, steps: seq<Step>, end: World) returns (worlds: seq<World>)
    requires Run(start, steps, end)
    ensures |worlds| == |steps| + 1 && Trace(worlds, steps) && worlds[0] == start && worlds[|steps|] == end
    decreases |steps|
  {
    hide Next, Possible;
    if steps == [] {
      worlds := [start];
    } else {
      var n := |steps| - 1;
      var mid :| Run(start, steps[..n], mid)
                 && mid.chain.epochLength > 0 && mid.chain.epochOrigin <= mid.chain.height
                 && Possible(mid, steps[n])
                 && end == Next(mid, steps[n]);
      var head := RunHasTrace(start, steps[..n], mid);
      worlds := head + [end];
      assert StepsTo(mid, steps[n], end);
      forall i | 0 <= i < |steps| ensures StepsTo(worlds[i], steps[i], worlds[i + 1]) {
        if i < n {
          assert StepsTo(head[i], steps[..n][i], head[i + 1]);
        }
      }
    }
  }

  // ---------------------------------------------------------------- requests and payments

  function Entry(waitList: WaitList, user: Addr, id: nat): nat {
    if (user, id) in waitList then waitList[(user, id)] else 0
  }

  /** The step is a request of this user to this batch, and succeeds. */
  ghost predicate Asks(w: World, step: Step, user: Addr, b: nat) {
    && step.Tx? && IsUnstake(step.msg)
    && user == (if step.msg.Unstake? then step.info.sender else step.msg.sender) && w.hub.currentBatch.id == b
    && Transact(w, step.q, step.info, step.msg).Ok?
  }

  /** What all the user's requests to the batch add up to. */
  ghost function Asked(worlds: seq<World>, steps: seq<Step>, user: Addr, b: nat): nat
    requires |worlds| > |steps|
  {
    if steps == [] then 0
    else
      var n := |steps| - 1;
      Asked(worlds, steps[..n], user, b)
      + if Asks(worlds[n], steps[n], user, b) then UnstakeAmount(steps[n].msg) else 0
  }

  /** The step is a withdrawal of this user that succeeds and pays for this batch: the user waits for it and asks
      for it, and it is released. */
  ghost predicate PaysFor(w: World, step: Step, user: Addr, b: nat) {
    && step.Tx? && IsWithdraw(step.msg) && step.info.sender == user
    && Transact(w, step.q, step.info, step.msg).Ok?
    && (user, b) in w.hub.waitList && (step.msg.WithdrawUnstaked? || b in step.msg.batchIds)
    && IsReleased(Transact(w, step.q, step.info, step.msg).value.hub.history, b)
  }

  // ---------------------------------------------------------------- one step

  /** A request raises the user's own entry by its amount, and no other entry changes. */
  lemma RecordedEntry(waitList: WaitList, user: Addr, id: nat, amount: nat)
    ensures var after := Recorded(waitList, user, id, amount);
            && (user, id) in after && Entry(after, user, id) == Entry(waitList, user, id) + amount
            && (forall k | k != (user, id) ::
                  (k in after <==> k in waitList) && (k in waitList ==> after[k] == waitList[k]))
  {
  }

  lemma CheckedEpochEntries(l: Ledger, batch: CurrentBatch, env: Env, q: Queries)
    requires BatchEpochChecked(l, batch, env, q).Ok?
    ensures var after := BatchEpochChecked(l, batch, env, q).value.ledger;
            after.waitList == l.waitList && after.currentBatch.id >= batch.id
  {
    hide CheckedState, UpdatePending, Undelegations, UndelegateMessages, DecimalMultiplication;
  }

  lemma UnstakeEntries(l: Ledger, env: Env, q: Queries, info: Info, msg: ExecuteMsg)
    requires IsUnstake(msg) && Execute(l, env, q, info, msg).Ok?
    ensures var after := Execute(l, env, q, info, msg).value.ledger;
            && after.waitList == Recorded(l.waitList, UnstakeUser(info, msg), l.currentBatch.id, UnstakeAmount(msg))
            && after.currentBatch.id >= l.currentBatch.id
  {
    hide BatchEpochChecked, Recorded, Execute;
    var o, burn := UnstakeIsExecuted(l, env, q, info, msg);
    CheckedEpochEntries(RecordedLedger(l, UnstakeUser(info, msg), UnstakeAmount(msg)),
                        RecordedBatch(l, UnstakeAmount(msg)), env, q);
  }

  lemma WithdrawEntries(l: Ledger, env: Env, q: Queries, info: Info, msg: ExecuteMsg) returns (batches: seq<nat>)
    requires IsWithdraw(msg) && Execute(l, env, q, info, msg).Ok?
    ensures var after := Execute(l, env, q, info, msg).value.ledger;
            && after.waitList == Without(l.waitList, info.sender, batches)
            && after.currentBatch == l.currentBatch
            && (forall id :: id in batches <==> id in AskedBatches(l, info.sender, AskedIds(msg))
                                                && (info.sender, id) in l.waitList && IsReleased(after.history, id))
  {
    hide FreeBalance, ReleasePass, MarkReleased, Finished, ListedEntries, Without, Owed, Repeated, UserBatches,
         Ascending;
    WithdrawIsExecuted(l, env, q, info, msg);
    hide Execute;
    var after := Execute(l, env, q, info, msg).value.ledger;
    var asked := AskedBatches(l, info.sender, AskedIds(msg));
    batches := Finished(after.history, ListedEntries(l.waitList, info.sender, asked)).1;
    FinishedIsOwedAndRepeated(l.waitList, after.history, info.sender, asked);
  }

  lemma OtherEntries(l: Ledger, env: Env, q: Queries, info: Info, msg: ExecuteMsg)
    requires !IsUnstake(msg) && !IsWithdraw(msg) && Execute(l, env, q, info, msg).Ok?
    ensures var after := Execute(l, env, q, info, msg).value.ledger;
            after.waitList == l.waitList && after.currentBatch.id >= l.currentBatch.id
  {
    hide CheckedState, UpdatePending, BatchEpochChecked, FreeBalance, ReleasePass, UpdatedParams, Delegations,
         MintAmount, Payment, MarkReleased;
    if msg.ProcessUndelegations? && BatchEpochChecked(l, l.currentBatch, env, q).Ok? {
      CheckedEpochEntries(l, l.currentBatch, env, q);
    }
  }

  /** What a step does to one user's entry for one batch: a request adds to it, a payment for it removes it, and
      nothing else touches it. A batch paid for is not the current one any more. */
  lemma EntryOverStep(w: World, step: Step, user: Addr, b: nat)
    requires Sound(w) && Possible(w, step)
    requires w.chain.epochLength > 0 && w.chain.epochOrigin <= w.chain.height
    ensures var l, after := w.hub, Next(w, step).hub;
            && l.currentBatch.id <= after.currentBatch.id
            && if PaysFor(w, step, user, b)
               then (user, b) !in after.waitList && b < after.currentBatch.id && !Asks(w, step, user, b)
               else
                 && ((user, b) in after.waitList <==> (user, b) in l.waitList || Asks(w, step, user, b))
                 && Entry(after.waitList, user, b)
                    == Entry(l.waitList, user, b)
                       + if Asks(w, step, user, b) then UnstakeAmount(step.msg) else 0
  {
    hide Transact, Execute, SoundFor, Possible, Recorded, Without, AskedBatches, BurnTokens, NewBlock;
    match step
    case Tx(q, info, msg) =>
      if Transact(w, q, info, msg).Ok? {
        var l := TransactFollows(w, q, info, msg);
        if IsUnstake(msg) {
          UnstakeEntries(w.hub, EnvOf(w.chain), q, info, msg);
          RecordedEntry(w.hub.waitList, UnstakeUser(info, msg), w.hub.currentBatch.id, UnstakeAmount(msg));
        } else if IsWithdraw(msg) {
          var batches := WithdrawEntries(w.hub, EnvOf(w.chain), q, info, msg);
          AllAreAsked(w.hub, info.sender);
          AskedForIds(w.hub, info.sender, msg);
          WithoutEntry(w.hub.waitList, info.sender, batches, user, b);
          if PaysFor(w, step, user, b) {
            ReleasedIsPast(w, step, b);
          }
        } else {
          OtherEntries(w.hub, EnvOf(w.chain), q, info, msg);
        }
      }
    case TokenBurn(q, amount) =>
      if BurnTokens(w, q, amount).Ok? {
        BurnFollows(w, q, amount);
      }
    case _ =>
  }

  lemma WithoutEntry(waitList: WaitList, sender: Addr, batches: seq<nat>, user: Addr, b: nat)
    ensures var after := Without(waitList, sender, batches);
            && ((user, b) in after <==> (user, b) in waitList && !(user == sender && b in batches))
            && ((user, b) in after ==> after[(user, b)] == waitList[(user, b)])
  {
  }

  /** A batch that is released has been undelegated. */
  lemma ReleasedIsPast(w: World, step: Step, b: nat)
    requires Sound(w) && Possible(w, step)
    requires w.chain.epochLength > 0 && w.chain.epochOrigin <= w.chain.height
    requires IsReleased(Next(w, step).hub.history, b)
    ensures b < Next(w, step).hub.currentBatch.id
  {
    hide Next, Possible, SoundFor;
    StepKeepsSound(w, step);
    RecordedBatchIsPast(Next(w, step), b);
  }

  lemma RecordedBatchIsPast(w: World, b: nat)
    requires Sound(w) && b in w.hub.history
    ensures b < w.hub.currentBatch.id
  {
    hide Solvent, Tracks, RateCovered, Unreleased, RecordOk;
  }

  // ---------------------------------------------------------------- whole runs

  ghost predicate EverAsked(worlds: seq<World>, steps: seq<Step>, user: Addr, b: nat)
    requires |worlds| > |steps|
  {
    exists i :: 0 <= i < |steps| && Asks(worlds[i], steps[i], user, b)
  }

  ghost predicate EverPaid(worlds: seq<World>, steps: seq<Step>, user: Addr, b: nat)
    requires |worlds| > |steps|
  {
    exists i :: 0 <= i < |steps| && PaysFor(worlds[i], steps[i], user, b)
  }

  lemma EverOrLast(worlds: seq<World>, steps: seq<Step>, user: Addr, b: nat)
    requires |worlds| > |steps| > 0
    ensures var n := |steps| - 1;
            && (EverAsked(worlds, steps, user, b)
                <==> EverAsked(worlds, steps[..n], user, b) || Asks(worlds[n], steps[n], user, b))
            && (EverPaid(worlds, steps, user, b)
                <==> EverPaid(worlds, steps[..n], user, b) || PaysFor(worlds[n], steps[n], user, b))
  {
    hide Asks, PaysFor;
    var n := |steps| - 1;
    forall i | 0 <= i < n ensures steps[..n][i] == steps[i] {
    }
    if i :| 0 <= i < n && Asks(worlds[i], steps[i], user, b) {
      assert Asks(worlds[i], steps[..n][i], user, b);
    }
    if i :| 0 <= i < n && PaysFor(worlds[i], steps[i], user, b) {
      assert PaysFor(worlds[i], steps[..n][i], user, b);
    }
  }

  lemma AsksNow(w: World, step: Step, user: Addr, b: nat)
    ensures Asks(w, step, user, b) ==> b == w.hub.currentBatch.id && step.Tx? && IsUnstake(step.msg)
    ensures PaysFor(w, step, user, b) ==> (user, b) in w.hub.waitList
  {
    hide Transact;
  }

  lemma LastOfTrace(worlds: seq<World>, steps: seq<Step>)
    requires Trace(worlds, steps) && steps != []
    ensures Trace(worlds, steps[..|steps| - 1])
    ensures StepsTo(worlds[|steps| - 1], steps[|steps| - 1], worlds[|steps|])
  {
    hide StepsTo;
    var n := |steps| - 1;
    assert StepsTo(worlds[n], steps[n], worlds[n + 1]);
    forall i | 0 <= i < n ensures StepsTo(worlds[i], steps[..n][i], worlds[i + 1]) {
      assert StepsTo(worlds[i], steps[i], worlds[i + 1]);
    }
  }

  /** Over a run from instantiation, a user has an entry for a batch exactly if the user asked for it and was not
      paid for it yet, and the entry is the sum of everything the user asked for. Once paid for, the batch is
      past, so that nothing more can be asked for it. */
  lemma {:induction false} EntryIsWhatWasAsked(worlds: seq<World>, steps: seq<Step>, user: Addr, b: nat)
    requires Trace(worlds, steps) && Start(worlds[0])
    ensures var l := worlds[|steps|].hub;
            && ((user, b) in l.waitList
                <==> EverAsked(worlds, steps, user, b) && !EverPaid(worlds, steps, user, b))
            && ((user, b) in l.waitList ==> l.waitList[(user, b)] == Asked(worlds, steps, user, b))
            && (!EverAsked(worlds, steps, user, b) ==> Asked(worlds, steps, user, b) == 0)
            && (EverPaid(worlds, steps, user, b) ==> b < l.currentBatch.id)
    decreases |steps|
  {
    hide Start, Next, Possible, Asks, PaysFor, Sound, Run;
    if steps == [] {
      StartOfTrace(worlds, user, b);
    } else {
      hide EverAsked, EverPaid;
      var n := |steps| - 1;
      LastOfTrace(worlds, steps);
      EntryIsWhatWasAsked(worlds, steps[..n], user, b);
      TraceIsRun(worlds, steps[..n]);
      ReachableIsSound(worlds[0], steps[..n], worlds[n]);
      EntryOverStep(worlds[n], steps[n], user, b);
      AsksNow(worlds[n], steps[n], user, b);
      EverOrLast(worlds, steps, user, b);
    }
  }

  lemma StartOfTrace(worlds: seq<World>, user: Addr, b: nat)
    requires |worlds| > 0 && Start(worlds[0])
    ensures (user, b) !in worlds[0].hub.waitList
  {
    hide Start;
    StartLedger(worlds[0]);
  }

  /** No batch is paid for twice to one user. */
  lemma PaidOnce(worlds: seq<World>, steps: seq<Step>, user: Addr, b: nat, i: nat, j: nat)
    requires Trace(worlds, steps) && Start(worlds[0])
    requires i < j < |steps| && PaysFor(worlds[i], steps[i], user, b)
    ensures !PaysFor(worlds[j], steps[j], user, b)
  {
    hide Start, StepsTo, Asks, PaysFor, EverAsked;
    assert Trace(worlds, steps[..j]) by {
      forall k | 0 <= k < j ensures StepsTo(worlds[k], steps[..j][k], worlds[k + 1]) {
        assert StepsTo(worlds[k], steps[k], worlds[k + 1]);
      }
    }
    EntryIsWhatWasAsked(worlds, steps[..j], user, b);
    assert PaysFor(worlds[i], steps[..j][i], user, b);
    AsksNow(worlds[j], steps[j], user, b);
  }

  // ---------------------------------------------------------------- payment

  /** On a calm run without loss that lists no batch twice in a withdrawal: once a batch has matured and what is
      still out is owed to later ones only, a user who asked for it and was not paid yet can withdraw
      what all the user's requests to it are worth at the rate it left at, rounded down once. */
  lemma WhatWasAskedIsPaid(worlds: seq<World>, steps: seq<Step>, b: nat, user: Addr, q: Queries)
    requires Trace(worlds, steps) && Start(worlds[0])
    requires forall s | s in steps :: LossFreeStep(worlds[0].chain.epochLength, s) && OrderlyStep(s)
    requires var end := worlds[|steps|];
             end.hub.currentBatch.id > 0 && MaturedBatch(end, b) && OutForLater(end, b) && q.balance == end.chain.bank
    requires EverAsked(worlds, steps, user, b) && !EverPaid(worlds, steps, user, b)
    ensures b in worlds[|steps|].hub.history
    ensures var end := worlds[|steps|];
            var worth := DecimalMultiplication(Asked(worlds, steps, user, b),
                                               end.hub.history[b].lstAppliedExchangeRate);
            var r := Withdrawn(end.hub, EnvOf(end.chain), q, user, Some([b]));
            if worth > 0 then r.Ok? && r.value.messages == [Send(user, worth)] else r == Err(NoWithdrawableAssets)
  {
    hide Start, StepsTo, LossFreeStep, OrderlyStep, EverAsked, EverPaid, OutForLater, Withdrawn, Run, Asked,
         DecimalMultiplication;
    var end := worlds[|steps|];
    EntryIsWhatWasAsked(worlds, steps, user, b);
    TraceIsRun(worlds, steps);
    MaturedClaimIsPaid(worlds[0], steps, end, b, user, q);
  }
}
