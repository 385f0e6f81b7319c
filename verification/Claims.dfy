/** What users have coming from released batches (contracts/lst_staking_hub/src/state.rs,
    get_finished_amount, get_finished_amount_for_batches, process_finished_amount). */
module Claims {
  import opened Wrappers
  import opened Sums
  import opened FixedPoint
  import opened HubTypes

  predicate IsReleased(history: History, id: nat) {
    id in history && history[id].released
  }

  function Redeemed(history: History, id: nat, amount: nat): nat
    requires id in history
  {
    DecimalMultiplication(amount, history[id].lstAppliedExchangeRate)
  }

  // ---------------------------------------------------------------- the code's own accumulation

  predicate IsMinimum(m: nat, ids: set<nat>) {
    m in ids && forall id | id in ids :: m <= id
  }

  lemma {:induction false} MinimumExists(ids: set<nat>) returns (least: nat)
    requires ids != {}
    ensures IsMinimum(least, ids)
    decreases |ids|
  {
    var x :| x in ids;
    least := x;
    if ids != {x} {
      var m := MinimumExists(ids - {x});
      least := Min(x, m);
      forall id | id in ids ensures least <= id {
        assert id == x || id in ids - {x};
      }
    }
  }

  /** The ids of a set in ascending order, the order in which storage is walked. */
  function Ascending(ids: set<nat>): seq<nat> {
    if ids == {} then []
    else
      assert exists m :: m in ids && IsMinimum(m, ids) by { var least := MinimumExists(ids); }
      var m :| m in ids && IsMinimum(m, ids);
      [m] + Ascending(ids - {m})
  }

  function UserBatches(waitList: WaitList, user: Addr): set<nat> {
    set k | k in waitList && k.0 == user :: k.1
  }

  /** The entries of `user` for the listed batches, in list order, a repeated id repeated. */
  function ListedEntries(waitList: WaitList, user: Addr, ids: seq<nat>): seq<(nat, nat)> {
    if ids == [] then []
    else
      var id := ids[|ids| - 1];
      ListedEntries(waitList, user, ids[..|ids| - 1]) +
      if (user, id) in waitList then [(id, waitList[(user, id)])] else []
  }

  /** The amount finished over a list of entries, and the batches it comes from. */
  function Finished(history: History, entries: seq<(nat, nat)>): (nat, seq<nat>) {
    if entries == [] then (0, [])
    else
      var n := |entries| - 1;
      var (amount, batches) := Finished(history, entries[..n]);
      if IsReleased(history, entries[n].0) then
        (amount + Redeemed(history, entries[n].0, entries[n].1), batches + [entries[n].0])
      else
        (amount, batches)
  }

  function Without(waitList: WaitList, user: Addr, batches: seq<nat>): WaitList {
    map k | k in waitList && !(k.0 == user && k.1 in batches) :: waitList[k]
  }

  // ---------------------------------------------------------------- what is owed

  /** Every open claim on the released batches. */
  ghost function ClaimMap(waitList: WaitList, history: History): map<(Addr, nat), nat> {
    map k | k in waitList && IsReleased(history, k.1) :: Redeemed(history, k.1, waitList[k])
  }

  ghost function TotalClaims(waitList: WaitList, history: History): nat {
    SumValues(ClaimMap(waitList, history))
  }

  /** The open claims of one user on the given batches, each batch once. */
  ghost function OwedMap(waitList: WaitList, history: History, user: Addr, ids: set<nat>): map<(Addr, nat), nat> {
    map k | k in waitList && k.0 == user && k.1 in ids && IsReleased(history, k.1)
      :: Redeemed(history, k.1, waitList[k])
  }

  ghost function Owed(waitList: WaitList, history: History, user: Addr, ids: set<nat>): nat {
    SumValues(OwedMap(waitList, history, user, ids))
  }

  /** What one listed id adds to the finished amount. */
  ghost function Claim(waitList: WaitList, history: History, user: Addr, id: nat): nat {
    if (user, id) in waitList && IsReleased(history, id) then Redeemed(history, id, waitList[(user, id)]) else 0
  }

  ghost function Ids(ids: seq<nat>): set<nat> { set id | id in ids }

  /** What ids listed before add once more. */
  ghost function Repeated(waitList: WaitList, history: History, user: Addr, ids: seq<nat>): nat {
    if ids == [] then 0
    else
      var n := |ids| - 1;
      Repeated(waitList, history, user, ids[..n]) +
      if ids[n] in ids[..n] then Claim(waitList, history, user, ids[n]) else 0
  }

  /** No id with a positive claim is listed twice. */
  ghost predicate NoRepeatedClaim(waitList: WaitList, history: History, user: Addr, ids: seq<nat>) {
    forall i, j | 0 <= i < j < |ids| :: ids[i] == ids[j] ==> Claim(waitList, history, user, ids[i]) == 0
  }

  lemma OwedStep(waitList: WaitList, history: History, user: Addr, ids: set<nat>, id: nat)
    requires id !in ids
    ensures Owed(waitList, history, user, ids + {id})
         == Owed(waitList, history, user, ids) + Claim(waitList, history, user, id)
  {
    var before := OwedMap(waitList, history, user, ids);
    var after := OwedMap(waitList, history, user, ids + {id});
    if (user, id) in waitList && IsReleased(history, id) {
      assert after == before[(user, id) := Claim(waitList, history, user, id)];
      SumUpdate(before, (user, id), Claim(waitList, history, user, id));
    } else {
      assert after == before;
    }
  }

  lemma FinishedAppend(history: History, entries: seq<(nat, nat)>, last: (nat, nat))
    ensures Finished(history, entries + [last])
         == var (amount, batches) := Finished(history, entries);
            if IsReleased(history, last.0) then (amount + Redeemed(history, last.0, last.1), batches + [last.0])
            else (amount, batches)
  {
    assert (entries + [last])[..|entries|] == entries;
  }

  /** What the code finishes for any list of ids is what the user is owed for them, plus the claims
      of the repeated ids, counted once for each repetition. The batches it clears are exactly the
      released ones among them that the user waits for. */
  lemma {:induction false} FinishedIsOwedAndRepeated(waitList: WaitList, history: History, user: Addr, ids: seq<nat>)
    ensures var (amount, batches) := Finished(history, ListedEntries(waitList, user, ids));
            && amount == Owed(waitList, history, user, Ids(ids)) + Repeated(waitList, history, user, ids)
            && (forall id :: id in batches <==> id in ids && (user, id) in waitList && IsReleased(history, id))
  {
    if ids == [] {
      assert OwedMap(waitList, history, user, Ids(ids)) == map[];
    } else {
      var n := |ids| - 1;
      FinishedIsOwedAndRepeated(waitList, history, user, ids[..n]);
      assert ids == ids[..n] + [ids[n]];
      assert Ids(ids) == Ids(ids[..n]) + {ids[n]};
      if ids[n] in ids[..n] {
        assert Ids(ids) == Ids(ids[..n]);
      } else {
        OwedStep(waitList, history, user, Ids(ids[..n]), ids[n]);
      }
      if (user, ids[n]) in waitList {
        FinishedAppend(history, ListedEntries(waitList, user, ids[..n]), (ids[n], waitList[(user, ids[n])]));
      } else {
        assert ListedEntries(waitList, user, ids) == ListedEntries(waitList, user, ids[..n]);
      }
    }
  }

  lemma {:induction false} RepeatedIsZero(waitList: WaitList, history: History, user: Addr, ids: seq<nat>)
    ensures Repeated(waitList, history, user, ids) == 0 <==> NoRepeatedClaim(waitList, history, user, ids)
  {
    if ids != [] {
      var n := |ids| - 1;
      var head := ids[..n];
      RepeatedIsZero(waitList, history, user, head);
      if NoRepeatedClaim(waitList, history, user, ids) {
        assert forall i | 0 <= i < n :: ids[i] == ids[n] ==> Claim(waitList, history, user, ids[i]) == 0;
      }
      if Repeated(waitList, history, user, ids) == 0 {
        forall i, j | 0 <= i < j < |ids| && ids[i] == ids[j]
          ensures Claim(waitList, history, user, ids[i]) == 0
        {
          assert head[i] == ids[i];
          if j < n {
            assert head[j] == ids[j];
          }
        }
      }
    }
  }

  /** A withdrawal for a list of ids pays what the user is owed for those batches exactly if no id
      with a positive claim is listed twice; otherwise it pays more. */
  lemma PayoutIsOwedIff(waitList: WaitList, history: History, user: Addr, ids: seq<nat>)
    ensures var amount := Finished(history, ListedEntries(waitList, user, ids)).0;
            && amount >= Owed(waitList, history, user, Ids(ids))
            && (amount == Owed(waitList, history, user, Ids(ids)) <==> NoRepeatedClaim(waitList, history, user, ids))
  {
    FinishedIsOwedAndRepeated(waitList, history, user, ids);
    RepeatedIsZero(waitList, history, user, ids);
  }

  lemma OwedOnOne(waitList: WaitList, history: History, user: Addr, id: nat)
    ensures Owed(waitList, history, user, {id}) == Claim(waitList, history, user, id)
  {
    assert {} + {id} == {id};
    assert OwedMap(waitList, history, user, {}) == map[];
    OwedStep(waitList, history, user, {}, id);
  }

  /** Listing one batch twice: it is owed once, and finished twice over. */
  lemma ListedTwice(waitList: WaitList, history: History, user: Addr, id: nat)
    ensures Owed(waitList, history, user, Ids([id, id])) == Claim(waitList, history, user, id)
    ensures Repeated(waitList, history, user, [id, id]) == Claim(waitList, history, user, id)
    ensures Finished(history, ListedEntries(waitList, user, [id, id])).0 == 2 * Claim(waitList, history, user, id)
  {
    var ids := [id, id];
    FinishedIsOwedAndRepeated(waitList, history, user, ids);
    assert ids[..1] == [id] && [id][..0] == [];
    assert Repeated(waitList, history, user, [id]) == 0;
    assert ids[1] in ids[..1];
    assert Ids(ids) == {id};
    OwedOnOne(waitList, history, user, id);
  }

  lemma AscendingHead(ids: set<nat>) returns (m: nat, tail: seq<nat>)
    requires ids != {}
    ensures m in ids && forall id | id in ids - {m} :: m < id
    ensures tail == Ascending(ids - {m}) && Ascending(ids) == [m] + tail
  {
    m := Ascending(ids)[0];
    tail := Ascending(ids - {m});
  }

  lemma {:induction false} AscendingLists(ids: set<nat>)
    ensures Ids(Ascending(ids)) == ids
    ensures forall i, j | 0 <= i < j < |Ascending(ids)| :: Ascending(ids)[i] < Ascending(ids)[j]
    decreases |ids|
  {
    if ids != {} {
      var m, tail := AscendingHead(ids);
      hide Ascending, Ids, IsMinimum;
      AscendingLists(ids - {m});
      HeadAndTail(m, tail);
    }
  }

  lemma HeadAndTail(m: nat, tail: seq<nat>)
    requires forall id | id in Ids(tail) :: m < id
    requires forall i, j | 0 <= i < j < |tail| :: tail[i] < tail[j]
    ensures Ids([m] + tail) == Ids(tail) + {m}
    ensures forall i, j | 0 <= i < j < |[m] + tail| :: ([m] + tail)[i] < ([m] + tail)[j]
  {
    forall i | 0 <= i < |tail| ensures m < tail[i] {
      assert tail[i] in Ids(tail);
    }
  }

  /** Paying a claim off removes it, and no other, from the open claims. */
  lemma WithoutClaims(waitList: WaitList, history: History, user: Addr, ids: set<nat>, batches: seq<nat>)
    requires forall id :: id in batches <==> id in ids && (user, id) in waitList && IsReleased(history, id)
    ensures TotalClaims(Without(waitList, user, batches), history)
         == TotalClaims(waitList, history) - Owed(waitList, history, user, ids)
    ensures Owed(waitList, history, user, ids) <= TotalClaims(waitList, history)
  {
    var all := ClaimMap(waitList, history);
    var owed := OwedMap(waitList, history, user, ids);
    assert ClaimMap(Without(waitList, user, batches), history) == all - owed.Keys;
    SumSplit(all, owed, all - owed.Keys);
  }

  // ---------------------------------------------------------------- the entries of one batch

  ghost function BatchEntries(waitList: WaitList, id: nat): map<(Addr, nat), nat> {
    map k | k in waitList && k.1 == id :: waitList[k]
  }

  /** What the wait list holds for one batch. */
  ghost function BatchTotal(waitList: WaitList, id: nat): nat {
    SumValues(BatchEntries(waitList, id))
  }

  function Recorded(waitList: WaitList, user: Addr, id: nat, amount: nat): WaitList {
    waitList[(user, id) := (if (user, id) in waitList then waitList[(user, id)] else 0) + amount]
  }

  /** A request adds its amount to its own batch and to no other. */
  lemma RecordedTotals(waitList: WaitList, user: Addr, id: nat, amount: nat)
    ensures BatchTotal(Recorded(waitList, user, id, amount), id) == BatchTotal(waitList, id) + amount
    ensures forall b | b != id :: BatchEntries(Recorded(waitList, user, id, amount), b) == BatchEntries(waitList, b)
  {
    var entries := BatchEntries(waitList, id);
    var after := Recorded(waitList, user, id, amount);
    assert BatchEntries(after, id) == entries[(user, id) := after[(user, id)]];
    SumUpdate(entries, (user, id), after[(user, id)]);
    forall b | b != id ensures BatchEntries(after, b) == BatchEntries(waitList, b) {
    }
  }

  /** Releasing one batch opens the claims of its entries: together they stay within what the batch is
      redeemed for, and fall short of it by less than one unit per entry. */
  lemma ReleaseOpensClaims(waitList: WaitList, history: History, id: nat)
    requires id in history && !history[id].released
    ensures var after := history[id := history[id].(released := true)];
            var whole := Redeemed(history, id, BatchTotal(waitList, id));
            && TotalClaims(waitList, after) <= TotalClaims(waitList, history) + whole
            && TotalClaims(waitList, history) + whole
               <= TotalClaims(waitList, after) + Max(|BatchEntries(waitList, id)|, 1) - 1
  {
    var after := history[id := history[id].(released := true)];
    var rate := history[id].lstAppliedExchangeRate;
    var entries := BatchEntries(waitList, id);
    OpenedClaims(waitList, history, id);
    SumDisjoint(ClaimMap(waitList, history), Scale(entries, rate));
    ScaleSum(entries, rate);
    if entries == map[] {
      assert DecimalMultiplication(0, rate) == 0;
    }
  }

  lemma OpenedClaims(waitList: WaitList, history: History, id: nat)
    requires id in history && !history[id].released
    ensures var scaled := Scale(BatchEntries(waitList, id), history[id].lstAppliedExchangeRate);
            && ClaimMap(waitList, history).Keys !! scaled.Keys
            && ClaimMap(waitList, history[id := history[id].(released := true)])
               == ClaimMap(waitList, history) + scaled
  {
  }
}
