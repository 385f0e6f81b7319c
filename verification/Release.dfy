/** Releasing matured batches (contracts/lst_staking_hub/src/unstake.rs, process_withdraw_rate and
    get_unprocessed_histories). */
module Release {
  import opened FixedPoint
  import opened HubTypes

  /** What a batch takes from the free balance when it is released. */
  function Cost(h: UnstakeHistory): nat {
    DecimalMultiplication(h.lstTokenAmount, h.lstWithdrawRate)
  }

  predicate Releasable(history: History, id: nat, cutoff: nat) {
    id in history && history[id].time <= cutoff && !history[id].released
  }

  /** The recorded batches a pass at `id` still has before it. */
  ghost function Ahead(history: History, id: nat): set<nat> {
    set b | b in history.Keys && b >= id
  }

  lemma AheadShrinks(history: History, id: nat)
    requires id in history
    ensures Ahead(history, id + 1) < Ahead(history, id)
  {
    assert id in Ahead(history, id) && id !in Ahead(history, id + 1);
  }

  /** The last batch released by a pass that has come to batch `id`, and the balance it leaves. */
  function ReleasePass(history: History, id: nat, cutoff: nat, balance: nat): (r: (nat, nat))
    requires id > 0
    ensures r.0 + 1 >= id && r.1 <= balance
    decreases Ahead(history, id)
  {
    if Releasable(history, id, cutoff) && Cost(history[id]) <= balance then
      AheadShrinks(history, id);
      ReleasePass(history, id + 1, cutoff, balance - Cost(history[id]))
    else
      (id - 1, balance)
  }

  function MarkReleased(history: History, after: nat, last: nat): History {
    map id | id in history :: if after < id <= last then history[id].(released := true) else history[id]
  }

  // ---------------------------------------------------------------- what a pass releases

  /** The cost of the batches after `after` up to `last`. */
  ghost function CostUpTo(history: History, after: nat, last: nat): nat {
    if last <= after then 0
    else CostUpTo(history, after, last - 1) + if last in history then Cost(history[last]) else 0
  }

  /** The batches after `after` up to `last` are all matured, unreleased, and paid for by `balance`. */
  ghost predicate Affordable(history: History, after: nat, last: nat, cutoff: nat, balance: nat) {
    && (forall b | after < b <= last :: Releasable(history, b, cutoff))
    && CostUpTo(history, after, last) <= balance
  }

  lemma {:induction false} CostFromFront(history: History, after: nat, last: nat)
    requires after < last
    ensures CostUpTo(history, after, last)
         == (if after + 1 in history then Cost(history[after + 1]) else 0) + CostUpTo(history, after + 1, last)
    decreases last
  {
    if after + 1 < last {
      CostFromFront(history, after, last - 1);
    }
  }

  lemma {:induction false} CostGrows(history: History, after: nat, mid: nat, last: nat)
    requires after <= mid <= last
    ensures CostUpTo(history, after, last) == CostUpTo(history, after, mid) + CostUpTo(history, mid, last)
    decreases last
  {
    if mid < last {
      CostGrows(history, after, mid, last - 1);
    }
  }

  /** A pass releases exactly the longest run of batches, oldest first, that has matured and that the
      balance covers, and leaves what they do not cost. */
  lemma {:induction false} PassReleasesLongestPrefix(history: History, after: nat, cutoff: nat, balance: nat)
    ensures var (last, left) := ReleasePass(history, after + 1, cutoff, balance);
            && Affordable(history, after, last, cutoff, balance)
            && left == balance - CostUpTo(history, after, last)
            && (forall m | m > last :: !Affordable(history, after, m, cutoff, balance))
    decreases Ahead(history, after + 1)
  {
    var (last, left) := ReleasePass(history, after + 1, cutoff, balance);
    if Releasable(history, after + 1, cutoff) && Cost(history[after + 1]) <= balance {
      AheadShrinks(history, after + 1);
      var rest := balance - Cost(history[after + 1]);
      PassReleasesLongestPrefix(history, after + 1, cutoff, rest);
      CostFromFront(history, after, last);
      forall m | m > last ensures !Affordable(history, after, m, cutoff, balance) {
        CostFromFront(history, after, m);
        assert !Affordable(history, after + 1, m, cutoff, rest);
      }
    } else {
      forall m | m > last ensures !Affordable(history, after, m, cutoff, balance) {
        CostFromFront(history, after, m);
        assert after < after + 1 <= m;
      }
    }
  }

  /** The longest affordable run is unique, so a pass is pinned down by it. */
  lemma PassIs(history: History, after: nat, cutoff: nat, balance: nat, last: nat)
    requires after <= last && Affordable(history, after, last, cutoff, balance)
    requires !Affordable(history, after, last + 1, cutoff, balance)
    ensures ReleasePass(history, after + 1, cutoff, balance) == (last, balance - CostUpTo(history, after, last))
  {
    PassReleasesLongestPrefix(history, after, cutoff, balance);
    var (l, left) := ReleasePass(history, after + 1, cutoff, balance);
    if l > last {
      CostGrows(history, after, last + 1, l);
      assert false;
    }
  }

  lemma {:induction false} MarkKeepsCosts(history: History, after: nat, mark: nat, from: nat, last: nat)
    ensures CostUpTo(MarkReleased(history, after, mark), from, last) == CostUpTo(history, from, last)
    decreases last
  {
    if from < last {
      MarkKeepsCosts(history, after, mark, from, last - 1);
    }
  }

  /** Past the batches already released, the rest is affordable on its own balance exactly if the
      whole run is affordable on all of it. */
  lemma AffordableSplits(history: History, after: nat, mid: nat, last: nat, cutoff: nat, left: nat, balance: nat)
    requires after <= mid <= last
    requires Affordable(history, after, mid, cutoff, balance) && left == balance - CostUpTo(history, after, mid)
    ensures Affordable(MarkReleased(history, after, mid), mid, last, cutoff, left)
        <==> Affordable(history, after, last, cutoff, balance)
    ensures CostUpTo(MarkReleased(history, after, mid), mid, last)
         == CostUpTo(history, after, last) - CostUpTo(history, after, mid)
  {
    var marked := MarkReleased(history, after, mid);
    MarkKeepsCosts(history, after, mid, mid, last);
    CostGrows(history, after, mid, last);
    forall b | b > mid ensures Releasable(marked, b, cutoff) == Releasable(history, b, cutoff) {
    }
  }

  /** A pass over what an affordable run leaves ends where a pass over the whole ends. */
  lemma SecondPass(history: History, after: nat, mid: nat, cutoff: nat, left: nat, balance: nat)
    requires after <= mid
    requires Affordable(history, after, mid, cutoff, balance) && left == balance - CostUpTo(history, after, mid)
    ensures ReleasePass(MarkReleased(history, after, mid), mid + 1, cutoff, left)
         == ReleasePass(history, after + 1, cutoff, balance)
  {
    var marked := MarkReleased(history, after, mid);
    var last := ReleasePass(marked, mid + 1, cutoff, left).0;
    PassReleasesLongestPrefix(marked, mid, cutoff, left);
    AffordableSplits(history, after, mid, last, cutoff, left, balance);
    AffordableSplits(history, after, mid, last + 1, cutoff, left, balance);
    PassIs(history, after, cutoff, balance, last);
  }

  lemma MarkTwice(history: History, after: nat, mid: nat, last: nat)
    requires after <= mid <= last
    ensures MarkReleased(MarkReleased(history, after, mid), mid, last) == MarkReleased(history, after, last)
  {
  }

  /** A second pass, at a later time and with more free balance, releases what one pass at that time
      with all the balance would have: splitting a pass changes neither the batches released nor
      what is left. With the same time and no new balance the second pass releases nothing. */
  lemma SplitPass(history: History, after: nat, cutoff1: nat, balance: nat, cutoff2: nat, extra: nat)
    requires cutoff1 <= cutoff2
    ensures var (last1, left1) := ReleasePass(history, after + 1, cutoff1, balance);
            var marked := MarkReleased(history, after, last1);
            var (last2, left2) := ReleasePass(marked, last1 + 1, cutoff2, left1 + extra);
            && ReleasePass(history, after + 1, cutoff2, balance + extra) == (last2, left2)
            && MarkReleased(marked, last1, last2) == MarkReleased(history, after, last2)
            && (cutoff1 == cutoff2 && extra == 0 ==> last2 == last1 && left2 == left1)
  {
    var (last1, left1) := ReleasePass(history, after + 1, cutoff1, balance);
    PassReleasesLongestPrefix(history, after, cutoff1, balance);
    forall b | after < b <= last1 ensures Releasable(history, b, cutoff2) {
      assert Releasable(history, b, cutoff1);
    }
    SecondPass(history, after, last1, cutoff2, left1 + extra, balance + extra);
    MarkTwice(history, after, last1, ReleasePass(history, after + 1, cutoff2, balance + extra).0);
  }

  /** A pass of the hub: the time it runs at, and the free balance that has come in since the last one. */
  datatype Pass = Pass(cutoff: nat, extra: nat)

  ghost function RunPasses(history: History, after: nat, balance: nat, passes: seq<Pass>): (History, nat, nat) {
    if passes == [] then (history, after, balance)
    else
      var n := |passes| - 1;
      var (h, last, left) := RunPasses(history, after, balance, passes[..n]);
      var (last', left') := ReleasePass(h, last + 1, passes[n].cutoff, left + passes[n].extra);
      (MarkReleased(h, last, last'), last', left')
  }

  ghost function TotalExtra(passes: seq<Pass>): nat {
    if passes == [] then 0 else TotalExtra(passes[..|passes| - 1]) + passes[|passes| - 1].extra
  }

  /** Any number of passes at non-decreasing times ends where one pass at the last time, with all
      the balance that came in, ends. */
  lemma {:induction false} ManyPassesAreOne(history: History, after: nat, balance: nat, passes: seq<Pass>)
    requires passes != []
    requires forall i, j | 0 <= i < j < |passes| :: passes[i].cutoff <= passes[j].cutoff
    ensures var (last, left) :=
              ReleasePass(history, after + 1, passes[|passes| - 1].cutoff, balance + TotalExtra(passes));
            RunPasses(history, after, balance, passes) == (MarkReleased(history, after, last), last, left)
    decreases |passes|
  {
    hide ReleasePass, MarkReleased;
    var n := |passes| - 1;
    if n == 0 {
      assert passes[..0] == [];
    } else {
      ManyPassesAreOne(history, after, balance, passes[..n]);
      SplitPass(history, after, passes[n - 1].cutoff, balance + TotalExtra(passes[..n]), passes[n].cutoff,
                passes[n].extra);
    }
  }
}
