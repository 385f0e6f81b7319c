/** The amounts queued in the chain's current staking epoch, kept in one record that is rolled over
    lazily (contracts/lst_staking_hub/src/state.rs, contracts/lst_staking_hub/src/query.rs). */
module PendingEpoch {
  import opened Wrappers
  import FixedPoint

  datatype PendingDelegation = PendingDelegation(
    stakingEpochLengthBlocks: nat,
    stakingEpochStartBlockHeight: nat,
    pendingStakingAmount: nat,
    pendingUnstakingAmount: nat)

  function GetPending(p: PendingDelegation, height: nat): Result<(nat, nat)> {
    var passedBlocks :- Minus(height, p.stakingEpochStartBlockHeight, Panic);
    if passedBlocks < p.stakingEpochLengthBlocks then
      Ok((p.pendingStakingAmount, p.pendingUnstakingAmount))
    else
      Ok((0, 0))
  }

  function UpdatePending(p: PendingDelegation, height: nat, staking: nat, unstaking: nat): Result<PendingDelegation> {
    var passedBlocks :- Minus(height, p.stakingEpochStartBlockHeight, Panic);
    if passedBlocks < p.stakingEpochLengthBlocks then
      Ok(p.(pendingStakingAmount := p.pendingStakingAmount + staking,
            pendingUnstakingAmount := p.pendingUnstakingAmount + unstaking))
    else if p.stakingEpochLengthBlocks == 0 then
      Err(Panic)
    else
      var epochsPassed := passedBlocks / p.stakingEpochLengthBlocks;
      Ok(p.(pendingStakingAmount := staking,
            pendingUnstakingAmount := unstaking,
            stakingEpochStartBlockHeight := p.stakingEpochStartBlockHeight + epochsPassed * p.stakingEpochLengthBlocks))
  }

  /** The read-side twin of the roll-over. */
  function QueryPending(p: PendingDelegation, height: nat): Result<PendingDelegation> {
    var passedBlocks :- Minus(height, p.stakingEpochStartBlockHeight, Panic);
    if passedBlocks >= p.stakingEpochLengthBlocks then
      if p.stakingEpochLengthBlocks == 0 then Err(Panic)
      else
        var epochsPassed := passedBlocks / p.stakingEpochLengthBlocks;
        Ok(p.(pendingStakingAmount := 0,
              pendingUnstakingAmount := 0,
              stakingEpochStartBlockHeight := p.stakingEpochStartBlockHeight
                + epochsPassed * p.stakingEpochLengthBlocks))
    else
      Ok(p)
  }

  // ---------------------------------------------------------------- epochs

  /** The chain's epoch of a block height, counting from the block `origin`. */
  function Epoch(origin: nat, length: nat, height: nat): nat
    requires length > 0 && origin <= height
  {
    if height < origin + length then 0 else 1 + Epoch(origin, length, height - length)
  }

  lemma {:induction false} EpochIsQuotient(origin: nat, length: nat, height: nat)
    requires length > 0 && origin <= height
    ensures Epoch(origin, length, height) == (height - origin) / length
    decreases height
  {
    var q := Epoch(origin, length, height);
    FixedPoint.Floor(height - origin, length, q);
    if height >= origin + length {
      EpochIsQuotient(origin, length, height - length);
      FixedPoint.Floor(height - length - origin, length, q - 1);
      assert q * length == (q - 1) * length + length && (q + 1) * length == (q - 1) * length + 2 * length;
    }
  }

  function EpochStart(origin: nat, length: nat, epoch: nat): nat {
    origin + epoch * length
  }

  lemma EpochContains(origin: nat, length: nat, height: nat, epoch: nat)
    requires length > 0 && origin <= height
    ensures Epoch(origin, length, height) == epoch <==>
              EpochStart(origin, length, epoch) <= height < EpochStart(origin, length, epoch) + length
  {
    EpochIsQuotient(origin, length, height);
    FixedPoint.Floor(height - origin, length, epoch);
    assert (epoch + 1) * length == epoch * length + length;
  }

  /** Rolling over from the start of an earlier epoch lands on the start of the current one. */
  lemma RollOver(origin: nat, length: nat, height: nat, epoch: nat)
    requires length > 0 && EpochStart(origin, length, epoch) <= height
    ensures var start := EpochStart(origin, length, epoch);
            start + (height - start) / length * length == EpochStart(origin, length, Epoch(origin, length, height))
  {
    hide Epoch;
    var start := EpochStart(origin, length, epoch);
    var passed := (height - start) / length;
    FixedPoint.Floor(height - start, length, passed);
    assert (epoch + passed) * length == epoch * length + passed * length;
    assert (passed + 1) * length == passed * length + length;
    EpochContains(origin, length, height, epoch + passed);
  }

  /** The block before is of another epoch. */
  ghost predicate StartsEpoch(origin: nat, length: nat, start: nat)
    requires length > 0 && origin <= start
  {
    start > origin ==> Epoch(origin, length, start - 1) != Epoch(origin, length, start)
  }

  lemma StartsEpochIff(origin: nat, length: nat, start: nat)
    requires length > 0 && origin <= start
    ensures StartsEpoch(origin, length, start) <==> start == EpochStart(origin, length, Epoch(origin, length, start))
  {
    hide Epoch;
    var e := Epoch(origin, length, start);
    EpochContains(origin, length, start, e);
    if start > origin {
      EpochContains(origin, length, start - 1, e);
    } else {
      EpochContains(origin, length, start, 0);
    }
  }

  /** A rolled-over start is the first block of the epoch of `height`. */
  lemma RolledStart(origin: nat, length: nat, start: nat, height: nat)
    requires length > 0 && origin <= start <= height && StartsEpoch(origin, length, start)
    ensures var rolled := start + (height - start) / length * length;
            rolled <= height < rolled + length && StartsEpoch(origin, length, rolled)
  {
    var e := Epoch(origin, length, height);
    StartsEpochIff(origin, length, start);
    RollOver(origin, length, height, Epoch(origin, length, start));
    EpochContains(origin, length, height, e);
    EpochContains(origin, length, EpochStart(origin, length, e), e);
    StartsEpochIff(origin, length, EpochStart(origin, length, e));
    hide Epoch, StartsEpoch;
  }

  /** An update adds to what is read at its height, and leaves a record that starts that height's epoch. */
  lemma UpdateAddsToReading(p: PendingDelegation, origin: nat, height: nat, staking: nat, unstaking: nat)
    requires p.stakingEpochLengthBlocks > 0 && origin <= p.stakingEpochStartBlockHeight <= height
    requires StartsEpoch(origin, p.stakingEpochLengthBlocks, p.stakingEpochStartBlockHeight)
    ensures GetPending(p, height).Ok?
    ensures var r := UpdatePending(p, height, staking, unstaking);
            var (s, u) := GetPending(p, height).value;
            && r.Ok?
            && r.value.stakingEpochLengthBlocks == p.stakingEpochLengthBlocks
            && origin <= r.value.stakingEpochStartBlockHeight <= height
            && height < r.value.stakingEpochStartBlockHeight + r.value.stakingEpochLengthBlocks
            && StartsEpoch(origin, p.stakingEpochLengthBlocks, r.value.stakingEpochStartBlockHeight)
            && GetPending(r.value, height) == Ok((s + staking, u + unstaking))
  {
    var start := p.stakingEpochStartBlockHeight;
    RolledStart(origin, p.stakingEpochLengthBlocks, start, height);
    if height - start >= p.stakingEpochLengthBlocks {
      var epochsPassed := (height - start) / p.stakingEpochLengthBlocks;
      var rolled := start + epochsPassed * p.stakingEpochLengthBlocks;
      assert rolled <= height < rolled + p.stakingEpochLengthBlocks;
      assert rolled >= origin;
    }
  }

  /** Within the epoch that starts at `start`, and at the first block of a later one. */
  lemma NextHeight(origin: nat, length: nat, start: nat, height: nat)
    requires length > 0 && origin <= start <= height && StartsEpoch(origin, length, start)
    ensures height < start + length ==>
              (Epoch(origin, length, height + 1) == Epoch(origin, length, height) <==> height + 1 < start + length)
  {
    var e := Epoch(origin, length, start);
    StartsEpochIff(origin, length, start);
    EpochContains(origin, length, height, e);
    EpochContains(origin, length, height + 1, e);
    hide Epoch, StartsEpoch;
  }

  // ---------------------------------------------------------------- the record against a full log

  datatype Entry = Entry(height: nat, staking: nat, unstaking: nat)

  /** A log of updates in block order, none before `origin`. */
  ghost predicate InBlockOrder(log: seq<Entry>, origin: nat) {
    && (forall i | 0 <= i < |log| :: origin <= log[i].height)
    && (forall i, j | 0 <= i < j < |log| :: log[i].height <= log[j].height)
  }

  function Replay(p: PendingDelegation, log: seq<Entry>): Result<PendingDelegation> {
    if log == [] then Ok(p)
    else
      var before :- Replay(p, log[..|log| - 1]);
      var last := log[|log| - 1];
      UpdatePending(before, last.height, last.staking, last.unstaking)
  }

  /** What the log says was queued in one epoch. */
  ghost function QueuedIn(log: seq<Entry>, origin: nat, length: nat, epoch: nat): (nat, nat)
    requires length > 0 && InBlockOrder(log, origin)
  {
    if log == [] then (0, 0)
    else
      var last := log[|log| - 1];
      var (s, u) := QueuedIn(log[..|log| - 1], origin, length, epoch);
      if Epoch(origin, length, last.height) == epoch then (s + last.staking, u + last.unstaking) else (s, u)
  }

  ghost function LastEpoch(log: seq<Entry>, origin: nat, length: nat): nat
    requires length > 0 && InBlockOrder(log, origin)
  {
    if log == [] then 0 else Epoch(origin, length, log[|log| - 1].height)
  }

  lemma {:induction false} NothingAfterLastEpoch(log: seq<Entry>, origin: nat, length: nat, epoch: nat)
    requires length > 0 && InBlockOrder(log, origin) && LastEpoch(log, origin, length) < epoch
    ensures QueuedIn(log, origin, length, epoch) == (0, 0)
  {
    if |log| > 1 {
      var n := |log| - 1;
      EpochsGrow(origin, length, log[n - 1].height, log[n].height);
      NothingAfterLastEpoch(log[..n], origin, length, epoch);
    }
  }

  lemma EpochsGrow(origin: nat, length: nat, h: nat, k: nat)
    requires length > 0 && origin <= h <= k
    ensures Epoch(origin, length, h) <= Epoch(origin, length, k)
  {
    var e, f := Epoch(origin, length, h), Epoch(origin, length, k);
    EpochContains(origin, length, h, e);
    EpochContains(origin, length, k, f);
    if f < e {
      FixedPoint.Products(f, e, length);
    }
  }

  /** For any run of updates in block order, skipped epochs included, the record holds what was
      queued in the epoch of its last update and starts on that epoch's first block; read at any
      later height it gives exactly what was queued in the epoch of that height. */
  lemma {:induction false} PendingRefinesLog(origin: nat, length: nat, log: seq<Entry>, height: nat)
    requires length > 0 && origin <= height && InBlockOrder(log, origin)
    requires log != [] ==> log[|log| - 1].height <= height
    ensures var r := Replay(PendingDelegation(length, origin, 0, 0), log);
            && r.Ok?
            && r.value.stakingEpochLengthBlocks == length
            && r.value.stakingEpochStartBlockHeight == EpochStart(origin, length, LastEpoch(log, origin, length))
              <= height
            && (r.value.pendingStakingAmount, r.value.pendingUnstakingAmount)
               == QueuedIn(log, origin, length, LastEpoch(log, origin, length))
            && GetPending(r.value, height) == Ok(QueuedIn(log, origin, length, Epoch(origin, length, height)))
    decreases |log|
  {
    hide Epoch;
    var e := Epoch(origin, length, height);
    if log == [] {
      EpochContains(origin, length, height, 0);
    } else {
      var n := |log| - 1;
      var last := log[n];
      var f := LastEpoch(log, origin, length);
      PendingRefinesLog(origin, length, log[..n], last.height);
      var g := LastEpoch(log[..n], origin, length);
      EpochContains(origin, length, last.height, g);
      if f != g {
        RollOver(origin, length, last.height, g);
        if n > 0 {
          EpochsGrow(origin, length, log[n - 1].height, last.height);
        }
        NothingAfterLastEpoch(log[..n], origin, length, f);
      }
      EpochContains(origin, length, last.height, f);
      EpochContains(origin, length, height, f);
      EpochsGrow(origin, length, last.height, height);
      if f < e {
        NothingAfterLastEpoch(log, origin, length, e);
      }
    }
  }

  /** The query returns what an update by nothing would store, and reads off what the getter returns. */
  lemma QueryIsEmptyUpdate(p: PendingDelegation, height: nat)
    ensures QueryPending(p, height) == UpdatePending(p, height, 0, 0)
    ensures QueryPending(p, height).Ok? ==>
              GetPending(p, height)
              == Ok((QueryPending(p, height).value.pendingStakingAmount,
                     QueryPending(p, height).value.pendingUnstakingAmount))
  {
  }
}
