/** The structure of the unstake batches, and the claims on them, as requests are recorded, batches
    are undelegated and released, and users withdraw (contracts/lst_staking_hub/src/unstake.rs). */
module Batches {
  import opened Wrappers
  import opened HubTypes
  import opened Claims
  import opened Release
  import opened World

  /** A record of an undelegated batch: its two rates agree, it is released exactly if it is among the
      first `processed`, and while it is not, the wait list holds exactly its tokens. */
  ghost predicate RecordOk(record: UnstakeHistory, id: nat, waitList: WaitList, processed: nat, lastUnbonded: nat) {
    && record.batchId == id
    && record.lstAppliedExchangeRate == record.lstWithdrawRate
    && (record.released <==> id <= processed)
    && record.time <= lastUnbonded
    && (id > processed ==> BatchTotal(waitList, id) == record.lstTokenAmount)
  }

  /** Every undelegated batch, and no other, has a record; times strictly increase; the current batch
      and every unreleased one are the sums of their users' entries. */
  ghost predicate Structured(batch: CurrentBatch, waitList: WaitList, history: History, processed: nat,
                             lastUnbonded: nat) {
    && processed < batch.id
    && (forall b :: b in history <==> 1 <= b < batch.id)
    && (forall b | b in history :: RecordOk(history[b], b, waitList, processed, lastUnbonded))
    && (forall b, c | b in history && c in history && b < c :: history[b].time < history[c].time)
    && (forall k | k in waitList :: 1 <= k.1 <= batch.id)
    && BatchTotal(waitList, batch.id) == batch.requestedLstTokenAmount
  }

  /** The coins set aside, with what repeated ids were overpaid added back, cover every open claim;
      what they hold beyond is within the rounding allowance of the batches released. */
  ghost predicate Solvent(waitList: WaitList, history: History, unclaimed: nat, overpaid: nat, dust: nat) {
    TotalClaims(waitList, history) <= unclaimed + overpaid <= TotalClaims(waitList, history) + dust
  }

  /** What the batches not yet released will cost. */
  ghost function Unreleased(batch: CurrentBatch, history: History, processed: nat): nat
    requires batch.id > 0
  {
    CostUpTo(history, processed, batch.id - 1)
  }

  // ---------------------------------------------------------------- recording a request

  lemma RecordKeepsStructure(batch: CurrentBatch, waitList: WaitList, history: History, processed: nat,
                             lastUnbonded: nat, user: Addr, amount: nat)
    requires Structured(batch, waitList, history, processed, lastUnbonded)
    ensures Structured(batch.(requestedLstTokenAmount := batch.requestedLstTokenAmount + amount),
                       Recorded(waitList, user, batch.id, amount), history, processed, lastUnbonded)
  {
    var after := Recorded(waitList, user, batch.id, amount);
    RecordedTotals(waitList, user, batch.id, amount);
    forall b | b in history ensures RecordOk(history[b], b, after, processed, lastUnbonded) {
      assert RecordOk(history[b], b, waitList, processed, lastUnbonded);
      assert BatchEntries(after, b) == BatchEntries(waitList, b);
    }
  }

  lemma RecordKeepsClaims(waitList: WaitList, history: History, user: Addr, id: nat, amount: nat)
    requires id !in history
    ensures ClaimMap(Recorded(waitList, user, id, amount), history) == ClaimMap(waitList, history)
  {
  }

  // ---------------------------------------------------------------- undelegating a batch

  lemma UndelegateKeepsStructure(batch: CurrentBatch, waitList: WaitList, history: History, processed: nat,
                                 lastUnbonded: nat, record: UnstakeHistory)
    requires Structured(batch, waitList, history, processed, lastUnbonded)
    requires record.time > lastUnbonded && record.batchId == batch.id && !record.released
    requires record.lstTokenAmount == batch.requestedLstTokenAmount
             && record.lstAppliedExchangeRate == record.lstWithdrawRate
    ensures Structured(CurrentBatch(batch.id + 1, 0), waitList, history[batch.id := record], processed, record.time)
  {
    var after := history[batch.id := record];
    assert BatchEntries(waitList, batch.id + 1) == map[];
    forall b | b in after ensures RecordOk(after[b], b, waitList, processed, record.time) {
      if b != batch.id {
        assert RecordOk(history[b], b, waitList, processed, lastUnbonded);
      }
    }
    forall b, c | b in after && c in after && b < c ensures after[b].time < after[c].time {
      assert RecordOk(history[b], b, waitList, processed, lastUnbonded);
    }
  }

  lemma UndelegateKeepsClaims(waitList: WaitList, history: History, id: nat, record: UnstakeHistory)
    requires id !in history && !record.released
    ensures ClaimMap(waitList, history[id := record]) == ClaimMap(waitList, history)
  {
  }

  lemma {:induction false} LaterRecordKeepsCost(history: History, id: nat, record: UnstakeHistory, after: nat,
                                                last: nat)
    requires last < id
    ensures CostUpTo(history[id := record], after, last) == CostUpTo(history, after, last)
    decreases last
  {
    if after < last {
      LaterRecordKeepsCost(history, id, record, after, last - 1);
    }
  }

  /** A batch leaves the stake as exactly what its release will cost. */
  lemma UndelegateAddsCost(batch: CurrentBatch, history: History, processed: nat, record: UnstakeHistory)
    requires 0 < batch.id && processed < batch.id
    ensures Unreleased(CurrentBatch(batch.id + 1, 0), history[batch.id := record], processed)
         == Unreleased(batch, history, processed) + Cost(record)
  {
    LaterRecordKeepsCost(history, batch.id, record, processed, batch.id - 1);
  }

  // ---------------------------------------------------------------- releasing

  lemma ReleaseKeepsStructure(batch: CurrentBatch, waitList: WaitList, history: History, processed: nat,
                              lastUnbonded: nat, last: nat)
    requires Structured(batch, waitList, history, processed, lastUnbonded)
    requires processed <= last && forall b | processed < b <= last :: b in history
    ensures Structured(batch, waitList, MarkReleased(history, processed, last), last, lastUnbonded)
    ensures last < batch.id
  {
    var after := MarkReleased(history, processed, last);
    forall b | b in after ensures RecordOk(after[b], b, waitList, last, lastUnbonded) {
      assert RecordOk(history[b], b, waitList, processed, lastUnbonded);
    }
    if last > processed {
      assert last in history;
    }
  }

  lemma MarkOneMore(history: History, processed: nat, last: nat)
    requires processed < last && last in history
    ensures var before := MarkReleased(history, processed, last - 1);
            && last in before && before[last] == history[last]
            && MarkReleased(history, processed, last) == before[last := before[last].(released := true)]
  {
  }

  lemma MarkNothing(history: History, processed: nat)
    ensures MarkReleased(history, processed, processed) == history
  {
  }

  lemma RecordIs(batch: CurrentBatch, waitList: WaitList, history: History, processed: nat, lastUnbonded: nat, id: nat)
    requires Structured(batch, waitList, history, processed, lastUnbonded)
    requires id in history
    ensures RecordOk(history[id], id, waitList, processed, lastUnbonded)
  {
  }

  lemma ReleaseOneMore(waitList: WaitList, history: History, processed: nat, last: nat)
    requires processed < last && last in history && !history[last].released
    requires history[last].lstAppliedExchangeRate == history[last].lstWithdrawRate
    requires BatchTotal(waitList, last) == history[last].lstTokenAmount
    ensures var before := TotalClaims(waitList, MarkReleased(history, processed, last - 1));
            var after := TotalClaims(waitList, MarkReleased(history, processed, last));
            && after <= before + Cost(history[last])
            && before + Cost(history[last]) <= after + Max(|BatchEntries(waitList, last)|, 1) - 1
  {
    MarkOneMore(history, processed, last);
    ReleaseOpensClaims(waitList, MarkReleased(history, processed, last - 1), last);
  }

  /** The claims opened by a release stay within what the released batches cost, and fall short of
      it by no more than their rounding allowance. */
  lemma {:induction false} ReleaseKeepsSolvent(batch: CurrentBatch, waitList: WaitList, history: History,
                                               processed: nat, lastUnbonded: nat, last: nat)
    requires Structured(batch, waitList, history, processed, lastUnbonded)
    requires processed <= last && forall b | processed < b <= last :: b in history
    ensures var claims := TotalClaims(waitList, MarkReleased(history, processed, last));
            var before := TotalClaims(waitList, history);
            && claims <= before + CostUpTo(history, processed, last)
            && before + CostUpTo(history, processed, last) <= claims + ReleaseDust(waitList, processed, last)
    decreases last
  {
    hide Structured, TotalClaims, Cost, MarkReleased, BatchTotal;
    if last == processed {
      MarkNothing(history, processed);
    } else {
      ReleaseKeepsSolvent(batch, waitList, history, processed, lastUnbonded, last - 1);
      RecordIs(batch, waitList, history, processed, lastUnbonded, last);
      ReleaseOneMore(waitList, history, processed, last);
    }
  }

  lemma ReleaseMovesCost(batch: CurrentBatch, history: History, processed: nat, last: nat)
    requires processed <= last < batch.id
    ensures Unreleased(batch, history, processed)
         == CostUpTo(history, processed, last) + Unreleased(batch, MarkReleased(history, processed, last), last)
  {
    var end := batch.id - 1;
    CostGrows(history, processed, last, end);
    MarkKeepsCosts(history, processed, last, last, end);
  }

  // ---------------------------------------------------------------- withdrawing

  lemma WithdrawKeepsStructure(batch: CurrentBatch, waitList: WaitList, history: History, processed: nat,
                               lastUnbonded: nat, user: Addr, batches: seq<nat>)
    requires Structured(batch, waitList, history, processed, lastUnbonded)
    requires forall b | b in batches :: IsReleased(history, b)
    ensures Structured(batch, Without(waitList, user, batches), history, processed, lastUnbonded)
  {
    var after := Without(waitList, user, batches);
    forall b | b !in batches ensures BatchEntries(after, b) == BatchEntries(waitList, b) {
    }
    assert batch.id !in batches;
    forall b | b in history ensures RecordOk(history[b], b, after, processed, lastUnbonded) {
      assert RecordOk(history[b], b, waitList, processed, lastUnbonded);
    }
  }
}
