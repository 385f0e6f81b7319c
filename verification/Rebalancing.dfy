/** What redelegation does to the balance of the active validators: what each excluded validator holds is spread
    over their totals from before the redelegation, so one holder keeps the balance and several can tip it
    (contracts/lst_validators_registry/src/contract.rs, process_redelegations). */
module Rebalancing {
  import opened Wrappers
  import opened Sums
  import opened Delegation
  import opened HubTypes
  import opened ValidatorsRegistry
  import W = World
  import H = Handlers

  /** Every amount can be spread over these totals. */
  ghost predicate CanSpread(current: seq<nat>, amounts: seq<nat>) {
    forall i | 0 <= i < |amounts| :: Delegations(amounts[i], current).Ok?
  }

  /** The totals once the amounts are moved, each spread over the totals from before. */
  ghost function AfterMoves(current: seq<nat>, amounts: seq<nat>): (t: seq<nat>)
    requires CanSpread(current, amounts)
    ensures |t| == |current|
  {
    if amounts == [] then current
    else
      var n := |amounts| - 1;
      Raised(AfterMoves(current, amounts[..n]), Delegations(amounts[n], current).value)
  }

  // ---------------------------------------------------------------- what the redelegations come to

  /** What they give one validator together. */
  ghost function MovedToBy(r: seq<Redelegation>, v: Addr): nat {
    if r == [] then 0 else MovedToBy(r[..|r| - 1], v) + MovedTo(r[|r| - 1].moves, v)
  }

  ghost function AmountsOf(r: seq<Redelegation>): (s: seq<nat>)
    ensures |s| == |r|
  {
    seq(|r|, i requires 0 <= i < |r| => MovedBy(r[i].moves))
  }

  ghost function TotalsAfter(active: seq<ValidatorResponse>, r: seq<Redelegation>): (s: seq<nat>)
    ensures |s| == |active|
  {
    seq(|active|, i requires 0 <= i < |active| => active[i].totalDelegated + MovedToBy(r, active[i].address))
  }

  lemma {:induction false} RedelegationsSpread(active: seq<ValidatorResponse>, r: seq<Redelegation>)
    requires forall m | m in r :: GivesParts(active, m.moves, MovedBy(m.moves))
    ensures CanSpread(Totals(active), AmountsOf(r))
    ensures TotalsAfter(active, r) == AfterMoves(Totals(active), AmountsOf(r))
    decreases |r|
  {
    hide Delegations, MovedTo, MovedBy;
    forall i | 0 <= i < |r| ensures Delegations(AmountsOf(r)[i], Totals(active)).Ok? {
      assert GivesParts(active, r[i].moves, MovedBy(r[i].moves));
    }
    if r != [] {
      var n := |r| - 1;
      RedelegationsSpread(active, r[..n]);
      assert AmountsOf(r)[..n] == AmountsOf(r[..n]);
      assert GivesParts(active, r[n].moves, MovedBy(r[n].moves));
    }
  }

  /** With at most one excluded validator that holds anything, redelegation widens no gap between two active ones
      beyond the widest there was, or one coin. */
  lemma OneHolderKeepsBalance(active: seq<ValidatorResponse>, held: map<Addr, nat>, excluded: seq<Addr>,
                              r: seq<Redelegation>, k: nat)
    requires EachOnce(active) && forall i, j | 0 <= i < j < |excluded| :: excluded[i] != excluded[j]
    requires Redelegated(active, held, excluded) == Ok(r) && |r| <= 1
    requires SpreadAtMost(Totals(active), k)
    ensures SpreadAtMost(TotalsAfter(active, r), Max(k, 1))
  {
    RedelegationConserves(active, held, excluded);
    hide Redelegated, Delegations, GivesParts, AmountsOf, TotalsAfter, Totals, MovedBy;
    forall m | m in r ensures GivesParts(active, m.moves, MovedBy(m.moves)) {
      assert MovesAll(active, held, m);
    }
    RedelegationsSpread(active, r);
    OneMoveKeepsBalance(Totals(active), AmountsOf(r), k);
  }

  lemma OneMoveKeepsBalance(current: seq<nat>, amounts: seq<nat>, k: nat)
    requires CanSpread(current, amounts) && |amounts| <= 1 && SpreadAtMost(current, k)
    ensures SpreadAtMost(AfterMoves(current, amounts), Max(k, 1))
  {
    hide Delegations;
    if amounts != [] {
      assert amounts[..0] == [] && AfterMoves(current, []) == current;
      DelegationsKeepBalance(amounts[0], current, k);
    }
  }

  // ---------------------------------------------------------------- on the chain

  /** The chain moves what a redelegation says from one validator to another. */
  function MoveOne(delegated: map<Addr, nat>, m: Message): map<Addr, nat> {
    if !m.Redelegate? || m.moved > W.At(delegated, m.source) then delegated
    else
      var less := delegated[m.source := W.At(delegated, m.source) - m.moved];
      less[m.destination := W.At(less, m.destination) + m.moved]
  }

  function CarriedOut(delegated: map<Addr, nat>, messages: seq<Message>): map<Addr, nat> {
    if messages == [] then delegated
    else MoveOne(CarriedOut(delegated, messages[..|messages| - 1]), messages[|messages| - 1])
  }

  lemma MoveOneMoves(delegated: map<Addr, nat>, m: Message, v: Addr)
    requires m.Redelegate? && m.moved <= W.At(delegated, m.source) && m.source != m.destination
    ensures W.At(MoveOne(delegated, m), v) + (if v == m.source then m.moved else 0)
         == W.At(delegated, v) + if v == m.destination then m.moved else 0
    ensures SumValues(MoveOne(delegated, m)) == SumValues(delegated)
  {
    var less := delegated[m.source := W.At(delegated, m.source) - m.moved];
    SumUpdate(delegated, m.source, W.At(delegated, m.source) - m.moved);
    SumUpdate(less, m.destination, W.At(less, m.destination) + m.moved);
  }

  /** The messages the hub sends for a list of moves give each destination what the list gives it, and take all of
      that from the source. */
  lemma {:induction false} ProxyMoves(delegated: map<Addr, nat>, source: Addr, moves: seq<(Addr, nat)>, v: Addr)
    requires MovedBy(moves) <= W.At(delegated, source) && forall m | m in moves :: m.0 != source
    ensures var after := CarriedOut(delegated, H.RedelegateMessages(source, moves));
            && W.At(after, v) + (if v == source then MovedBy(moves) else 0) == W.At(delegated, v) + MovedTo(moves, v)
            && SumValues(after) == SumValues(delegated)
    decreases |moves|
  {
    var messages := H.RedelegateMessages(source, moves);
    if moves != [] {
      var n := |moves| - 1;
      assert moves[n] in moves;
      assert messages[..n] == H.RedelegateMessages(source, moves[..n]);
      ProxyMoves(delegated, source, moves[..n], v);
      ProxyMoves(delegated, source, moves[..n], source);
      NothingToSource(moves[..n], source);
      MoveOneMoves(CarriedOut(delegated, messages[..n]), messages[n], v);
    }
  }

  lemma {:induction false} NothingToSource(moves: seq<(Addr, nat)>, source: Addr)
    requires forall m | m in moves :: m.0 != source
    ensures MovedTo(moves, source) == 0
    decreases |moves|
  {
    if moves != [] {
      var n := |moves| - 1;
      assert moves[n] in moves;
      NothingToSource(moves[..n], source);
    }
  }

  /** Carried out, a redelegation leaves nothing with its source, gives each active validator its own part of what the
      source held, touches no other, and keeps the total. */
  lemma RedelegationCarriedOut(active: seq<ValidatorResponse>, delegated: map<Addr, nat>, r: Redelegation)
    requires EachOnce(active) && Unlisted(active, r.source) && MovesAll(active, delegated, r)
    ensures Delegations(delegated[r.source], Totals(active)).Ok?
    ensures var after := CarriedOut(delegated, H.RedelegateMessages(r.source, r.moves));
            && W.At(after, r.source) == 0
            && (forall i | 0 <= i < |active| ::
                  W.At(after, active[i].address)
                  == W.At(delegated, active[i].address) + Delegations(delegated[r.source], Totals(active)).value[i])
            && (forall v | v != r.source && Unlisted(active, v) :: W.At(after, v) == W.At(delegated, v))
            && SumValues(after) == SumValues(delegated)
  {
    hide Delegations, MovedTo, MovedBy, CarriedOut, Totals;
    var after := CarriedOut(delegated, H.RedelegateMessages(r.source, r.moves));
    forall m | m in r.moves ensures m.0 != r.source {
      assert ToActive(active, m);
    }
    NothingToSource(r.moves, r.source);
    forall v ensures W.At(after, v) + (if v == r.source then MovedBy(r.moves) else 0)
                  == W.At(delegated, v) + MovedTo(r.moves, v)
    {
      ProxyMoves(delegated, r.source, r.moves, v);
    }
    ProxyMoves(delegated, r.source, r.moves, r.source);
    assert GivesParts(active, r.moves, delegated[r.source]);
  }

  /** So on the chain it is a move of coins that the runs admit, as long as nothing is queued to be taken from its
      source. */
  lemma RedelegationIsMove(w: W.World, active: seq<ValidatorResponse>, r: Redelegation)
    requires EachOnce(active) && Unlisted(active, r.source) && MovesAll(active, w.chain.delegated, r)
    requires W.UnstakedFrom(w.chain.queue, r.source) == 0
    ensures W.Possible(w, W.Move(CarriedOut(w.chain.delegated, H.RedelegateMessages(r.source, r.moves))))
  {
    hide CarriedOut, MovesAll, Delegations;
    var delegated := w.chain.delegated;
    var after := CarriedOut(delegated, H.RedelegateMessages(r.source, r.moves));
    RedelegationCarriedOut(active, delegated, r);
    forall v ensures v == r.source || W.At(delegated, v) <= W.At(after, v) {
      if i :| 0 <= i < |active| && active[i].address == v {
        assert W.At(after, active[i].address) >= W.At(delegated, active[i].address);
      }
    }
    if W.Covered(delegated, w.chain.queue) {
      forall v ensures W.UnstakedFrom(w.chain.queue, v) <= W.At(after, v) {
        assert W.UnstakedFrom(w.chain.queue, v) <= W.At(delegated, v);
      }
    }
  }

  // ---------------------------------------------------------------- several at once

  lemma SumOfBoth(a: nat, b: nat)
    ensures Sum([a, b]) == a + b
  {
    var one: seq<nat> := [a];
    var two: seq<nat> := [a, b];
    assert one[..0] == [] && two[..1] == one;
    assert Sum(one) == a;
  }

  lemma TwoTargets(total: nat)
    ensures Targets(total, 2) == [total / 2 + total % 2, total / 2]
  {
    assert |Targets(total, 2)| == 2;
    assert Targets(total, 2)[0] == total / 2 + total % 2 && Targets(total, 2)[1] == total / 2;
  }

  /** Of two validators with nothing and `d`, an amount that covers the difference brings both to the target. */
  lemma TwoParts(a: nat, d: nat)
    requires d <= a && d + a <= U128_MAX
    ensures Delegations(a, [0, d]).Ok?
    ensures Delegations(a, [0, d]).value == [(d + a) / 2 + (d + a) % 2, (d + a) / 2 - d]
  {
    hide Delegations, Sum, Fill, Deficits, Targets, U128_MAX;
    SumOfBoth(0, d);
    DelegationsTotalAndExact(a, [0, d]);
    TwoTargets(d + a);
    Reached(Delegations(a, [0, d]).value, d, Targets(d + a, 2));
  }

  lemma Reached(parts: seq<nat>, d: nat, target: seq<nat>)
    requires |parts| == |target| == 2 && d <= target[1]
    requires Raised([0, d], parts) == target
    ensures parts == [target[0], target[1] - d]
  {
    assert Raised([0, d], parts)[0] == parts[0] && Raised([0, d], parts)[1] == d + parts[1];
  }

  /** How many of the amounts leave an odd total. */
  ghost function Odd(amounts: seq<nat>, d: nat): nat {
    if amounts == [] then 0 else Odd(amounts[..|amounts| - 1], d) + (d + amounts[|amounts| - 1]) % 2
  }

  lemma {:induction false} GapAfterMoves(amounts: seq<nat>, d: nat)
    requires forall i | 0 <= i < |amounts| :: d <= amounts[i] && d + amounts[i] <= U128_MAX
    ensures CanSpread([0, d], amounts)
    ensures var after := AfterMoves([0, d], amounts); after[0] + d == after[1] + Odd(amounts, d) + |amounts| * d
    decreases |amounts|
  {
    hide Delegations, U128_MAX;
    forall i | 0 <= i < |amounts| ensures Delegations(amounts[i], [0, d]).Ok? {
      TwoParts(amounts[i], d);
    }
    if amounts != [] {
      hide Odd, CanSpread, Raised;
      var n := |amounts| - 1;
      GapAfterMoves(amounts[..n], d);
      TwoParts(amounts[n], d);
      OddStep(amounts, d);
      GapStep(AfterMoves([0, d], amounts[..n]), amounts[n], d, Odd(amounts[..n], d), n);
    }
  }

  lemma GapStep(before: seq<nat>, a: nat, d: nat, odd: nat, n: nat)
    requires |before| == 2 && d <= a && before[0] + d == before[1] + odd + n * d
    ensures var after := Raised(before, [(d + a) / 2 + (d + a) % 2, (d + a) / 2 - d]);
            after[0] + d == after[1] + (odd + (d + a) % 2) + (n + 1) * d
  {
  }

  lemma OddStep(amounts: seq<nat>, d: nat)
    requires amounts != []
    ensures Odd(amounts, d) == Odd(amounts[..|amounts| - 1], d) + (d + amounts[|amounts| - 1]) % 2
  {
  }

  /** The balance is kept. */
  ghost predicate Balanced(current: seq<nat>, amounts: seq<nat>, k: nat)
    requires CanSpread(current, amounts)
  {
    SpreadAtMost(current, k) ==> SpreadAtMost(AfterMoves(current, amounts), Max(k, 1))
  }

  /** Whatever the active validators have, redelegating these amounts at once keeps their balance exactly if there is
      at most one amount: for any two or more there are active validators that start within one coin of each
      other and end further apart. */
  lemma BalancedIff(amounts: seq<nat>)
    requires forall i | 0 <= i < |amounts| :: 0 < amounts[i] < U128_MAX
    ensures (forall current, k: nat | CanSpread(current, amounts) :: Balanced(current, amounts, k)) <==> |amounts| <= 1
  {
    hide CanSpread, AfterMoves;
    if |amounts| <= 1 {
      forall current, k: nat | CanSpread(current, amounts) ensures Balanced(current, amounts, k) {
        if SpreadAtMost(current, k) {
          OneMoveKeepsBalance(current, amounts, k);
        }
      }
    } else {
      var current := SomeTip(amounts);
      assert !Balanced(current, amounts, 1);
    }
  }

  lemma SomeTip(amounts: seq<nat>) returns (current: seq<nat>)
    requires |amounts| >= 2 && forall i | 0 <= i < |amounts| :: 0 < amounts[i] < U128_MAX
    ensures CanSpread(current, amounts) && SpreadAtMost(current, 1)
    ensures !SpreadAtMost(AfterMoves(current, amounts), 1)
  {
    hide CanSpread, Odd, AfterMoves, Delegations;
    var d := SomeGap(amounts);
    current := [0, d];
    GapAfterMoves(amounts, d);
    var after := AfterMoves(current, amounts);
    assert after[0] > after[1] + 1;
  }

  /** A difference of none or one that the amounts, each with its odd coin on the same side, widen by two. */
  lemma SomeGap(amounts: seq<nat>) returns (d: nat)
    requires |amounts| >= 2
    ensures d <= 1 && Odd(amounts, d) + |amounts| * d >= 2 + d
  {
    var n := |amounts|;
    if n == 2 {
      d := if amounts[0] % 2 == 1 && amounts[1] % 2 == 1 then 0 else 1;
      assert amounts[..1][..0] == [] && amounts[..1][0] == amounts[0];
      OddStep(amounts, d);
      OddStep(amounts[..1], d);
    } else {
      d := 1;
      assert |amounts| * 1 >= 3;
    }
  }

  // ---------------------------------------------------------------- two holders

  const BOTH: seq<ValidatorResponse> := [ValidatorResponse(0, "a"), ValidatorResponse(0, "b")]

  const TIPPED: seq<Redelegation> := [Redelegation("c", [("a", 1)]), Redelegation("d", [("a", 1)])]

  /** Two excluded validators with one coin each, and two active ones with nothing: both coins go to the same. */
  lemma TwoHoldersTip()
    ensures Redelegated(BOTH, map["c" := 1, "d" := 1], ["c", "d"]) == Ok(TIPPED)
    ensures TotalsAfter(BOTH, TIPPED) == [2, 0]
  {
    OneCoinMoves();
    TippedTotals();
    hide Moves, Delegations, TotalsAfter, Totals;
    var held := map["c" := 1, "d" := 1];
    assert ["c", "d"][..1] == ["c"] && ["c"][..0] == [];
    assert Redelegated(BOTH, held, []) == Ok([]);
    var first := [Redelegation("c", [("a", 1)])];
    assert [] + first == first && first + [Redelegation("d", [("a", 1)])] == TIPPED;
    assert Redelegated(BOTH, held, ["c"]) == Ok(first);
  }

  lemma OneCoinMoves()
    ensures Delegations(1, Totals(BOTH)) == Ok([1, 0]) && Moves(BOTH, [1, 0]) == [("a", 1)]
  {
    TwoParts(1, 0);
    assert Totals(BOTH) == [0, 0];
    hide Delegations, Totals;
    assert [1, 0][..1] == [1] && [1][..0] == [];
    assert BOTH[..1] == [BOTH[0]] && BOTH[..1][..0] == [];
    assert Moves(BOTH[..1], [1]) == [("a", 1)];
  }

  lemma TippedTotals()
    ensures TotalsAfter(BOTH, TIPPED) == [2, 0]
  {
    assert "a" != "b";
    assert TIPPED[..1] == [TIPPED[0]] && TIPPED[..1][..0] == [];
    var one: seq<(Addr, nat)> := [("a", 1)];
    assert one[..0] == [];
    assert MovedTo(one, "a") == 1 && MovedTo(one, "b") == 0;
    assert MovedToBy([], "a") == 0 && MovedToBy([], "b") == 0;
    assert MovedToBy(TIPPED[..1], "a") == 1 && MovedToBy(TIPPED[..1], "b") == 0;
  }
}
