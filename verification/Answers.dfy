/** The answers a transaction works with are those of its chain: any listing of the delegations there are, and the
    registry's own answer about them, meet what `World.Sees` asks (contracts/lst_staking_hub/src/contract.rs,
    query_actual_state; contracts/lst_validators_registry/src/contract.rs, query_validators). */
module ChainAnswers {
  import opened Wrappers
  import opened Sums
  import opened FixedPoint
  import opened PendingEpoch
  import opened HubTypes
  import opened Handlers
  import opened World
  import opened Runs
  import R = ValidatorsRegistry

  /** `order` walks the validators that hold something, each once. */
  ghost predicate WalksHolders(delegated: map<Addr, nat>, order: seq<Addr>) {
    && (forall v :: v in order <==> At(delegated, v) > 0)
    && (forall i, j | 0 <= i < j < |order| :: order[i] != order[j])
  }

  /** One coin for each of them. */
  ghost function Listing(delegated: map<Addr, nat>, denom: string, order: seq<Addr>): (s: seq<Coin>)
    ensures |s| == |order|
  {
    seq(|order|, i requires 0 <= i < |order| => Coin(denom, At(delegated, order[i])))
  }

  /** The same listing as the registry asks for it. */
  ghost function HeldListing(delegated: map<Addr, nat>, order: seq<Addr>): (s: seq<R.Held>)
    ensures |s| == |order|
  {
    seq(|order|, i requires 0 <= i < |order| => R.Held(order[i], At(delegated, order[i])))
  }

  lemma {:induction false} HoldersCanBeWalked(delegated: map<Addr, nat>) returns (order: seq<Addr>)
    ensures WalksHolders(delegated, order)
    decreases |delegated|
  {
    order := [];
    if delegated != map[] {
      var v :| v in delegated;
      var rest := HoldersCanBeWalked(delegated - {v});
      order := if delegated[v] > 0 then rest + [v] else rest;
      assert At(delegated - {v}, v) == 0;
      forall u ensures u in order <==> At(delegated, u) > 0 {
        assert u in rest <==> At(delegated - {v}, u) > 0;
      }
    }
  }

  /** However the holders are walked, what the check adds up is all that the chain holds, with any number of
      validators that hold the same. */
  lemma ListingAddsUp(delegated: map<Addr, nat>, denom: string, order: seq<Addr>)
    requires WalksHolders(delegated, order)
    ensures SumOfDenom(Listing(delegated, denom, order), denom) == SumValues(delegated)
    ensures Listing(delegated, denom, order) == [] <==> SumValues(delegated) == 0
  {
    var listing := Listing(delegated, denom, order);
    forall i | 0 <= i < |order| ensures order[i] in delegated {
      assert order[i] in order;
    }
    SumOfWalk(delegated, order);
    SumOfDenomIsSum(listing, denom);
    assert Amounts(listing, denom) == ValuesAt(delegated, order);
    if order != [] {
      assert order[0] in order;
      SumRemove(delegated, order[0]);
    } else {
      assert Sum(ValuesAt(delegated, order)) == 0;
    }
  }

  lemma ListingShows(delegated: map<Addr, nat>, order: seq<Addr>, v: Addr, n: nat)
    requires WalksHolders(delegated, order) && R.Shows(HeldListing(delegated, order), v, n)
    ensures n == At(delegated, v)
  {
    var held := HeldListing(delegated, order);
    if i: nat :| R.LastFor(held, v, i) && held[i].amount == n {
      assert held[i] == R.Held(order[i], At(delegated, order[i]));
    } else {
      forall i | 0 <= i < |order| ensures order[i] != v {
        assert held[i].validator == order[i];
      }
      assert v !in order;
    }
  }

  /** Where the registry stores validators under their own addresses, any listing of the chain's delegations and the
      registry's answer over it are true answers. */
  lemma AnswersAreSeen(c: Chain, denom: string, order: seq<Addr>, l: R.Lists, keys: seq<Addr>, q: Queries)
    requires WalksHolders(c.delegated, order)
    requires R.Normal(l) && R.Walks(keys, l.registry.Keys)
    requires q.delegations == Listing(c.delegated, denom, order) && q.supply == c.supply
    requires q.validators == R.ValidatorsDelegation(l, HeldListing(c.delegated, order), keys)
    ensures Sees(c, denom, q, q.balance)
  {
    var held := HeldListing(c.delegated, order);
    ListingAddsUp(c.delegated, denom, order);
    R.AnswersTruly(l, held, keys);
    hide Listing, SumOfDenom, SumValues, R.ValidatorsDelegation, HeldListing, WalksHolders, R.Shows, R.Walks;
    forall i | 0 <= i < |q.validators| ensures q.validators[i].totalDelegated
      == At(c.delegated, q.validators[i].address) {
      assert R.Truthful(q.validators[i], l, held);
      ListingShows(c.delegated, order, q.validators[i].address, q.validators[i].totalDelegated);
    }
  }

  /** A slashing check over any listing of the chain's delegations sets the total to the lesser of itself and what the
      chain holds plus what is queued to be staked less what is queued to be unstaked; where nothing is held, or the
      total is just what is queued, it leaves all as it is. */
  lemma CheckAgainstChain(st: State, denom: string, requested: nat, pending: PendingDelegation, c: Chain, q: Queries,
                          order: seq<Addr>)
    requires Tracks(pending, c) && WalksHolders(c.delegated, order)
    requires q.delegations == Listing(c.delegated, denom, order)
    ensures var r := ActualState(st, denom, requested, pending, EnvOf(c), q);
            var held, stake, unstake := SumValues(c.delegated), QueuedStake(c.queue), QueuedUnstake(c.queue);
            if held == 0 then r == Ok(st)
            else if st.totalStakedAmount < stake
              || (st.totalStakedAmount + unstake > held + stake && held + stake < unstake)
              then r == Err(Panic)
            else if st.totalStakedAmount + unstake == stake then r == Ok(st)
            else
              && r.Ok?
              && r.value.totalStakedAmount
                 == if st.totalStakedAmount + unstake > held + stake then held + stake - unstake
                   else st.totalStakedAmount
  {
    ListingAddsUp(c.delegated, denom, order);
    hide Listing, SumOfDenom, SumValues, WalksHolders, StartsEpoch, FromRatio;
  }
}
