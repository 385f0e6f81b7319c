/** packages/lst_common/src/delegation.rs: spreading an amount over the validators.

    Both allocators aim at an even split of the total after the operation, and walk the list once,
    giving (or taking) what separates each validator from its target while any amount is left. */
module Delegation {
  import opened Wrappers
  import opened Sums

  const U128_MAX: nat := 0xffff_ffff_ffff_ffff_ffff_ffff_ffff_ffff

  datatype ValidatorResponse = ValidatorResponse(totalDelegated: nat, address: string)

  function Totals(validators: seq<ValidatorResponse>): (s: seq<nat>)
    ensures |s| == |validators|
    ensures forall i | 0 <= i < |s| :: s[i] == validators[i].totalDelegated
  {
    seq(|validators|, i requires 0 <= i < |validators| => validators[i].totalDelegated)
  }

  /** No two of them have the same address. */
  ghost predicate EachOnce(validators: seq<ValidatorResponse>) {
    forall i, j | 0 <= i < j < |validators| :: validators[i].address != validators[j].address
  }

  ghost predicate Unlisted(validators: seq<ValidatorResponse>, v: string) {
    forall i | 0 <= i < |validators| :: validators[i].address != v
  }

  function DistributeCoins(coins: nat, validators: nat): (nat, nat)
    requires validators > 0
  {
    (coins / validators, coins % validators)
  }

  function TargetCoinsPerValidator(coinsPerVal: nat, remainingCoins: nat, validators: nat): seq<nat> {
    seq(validators, i requires 0 <= i < validators => coinsPerVal + if i + 1 <= remainingCoins then 1 else 0)
  }

  function Targets(coins: nat, validators: nat): (t: seq<nat>)
    requires validators > 0
    ensures |t| == validators
  {
    var (coinsPerVal, remainingCoins) := DistributeCoins(coins, validators);
    TargetCoinsPerValidator(coinsPerVal, remainingCoins, validators)
  }

  // ---------------------------------------------------------------- the even split

  lemma {:induction false} TargetsPrefix(coinsPerVal: nat, remainingCoins: nat, n: nat, k: nat)
    requires k <= n
    ensures Sum(TargetCoinsPerValidator(coinsPerVal, remainingCoins, n)[..k])
            == coinsPerVal * k + Min(k, remainingCoins)
  {
    if k > 0 {
      TargetsPrefix(coinsPerVal, remainingCoins, n, k - 1);
      SumStep(TargetCoinsPerValidator(coinsPerVal, remainingCoins, n), k - 1);
    }
  }

  /** The targets add up to the coins, and any two of them differ by at most one coin; where they differ, the
      earlier validator gets the extra coin. */
  lemma TargetsSplitEvenly(coins: nat, n: nat)
    requires n > 0
    ensures Sum(Targets(coins, n)) == coins
    ensures forall i, j | 0 <= i < j < n :: Targets(coins, n)[j] <= Targets(coins, n)[i]
    ensures forall i, j | 0 <= i < n && 0 <= j < n :: Targets(coins, n)[i] <= Targets(coins, n)[j] + 1
  {
    var (each, rest) := DistributeCoins(coins, n);
    assert coins == each * n + rest && rest < n;
    hide DistributeCoins, Sum;
    TargetsPrefix(each, rest, n, n);
    assert Targets(coins, n)[..n] == TargetCoinsPerValidator(each, rest, n)[..n] == Targets(coins, n);
  }

  // ---------------------------------------------------------------- filling wants in list order

  /** Hands out `amount` over `wants` in list order: after any prefix of the list, the amount handed
      out is the lesser of `amount` and what that prefix wants. */
  function Fill(wants: seq<nat>, amount: nat): (f: seq<nat>)
    ensures |f| == |wants|
  {
    seq(|wants|, i requires 0 <= i < |wants| => Handed(wants, amount, i))
  }

  function Handed(wants: seq<nat>, amount: nat, i: nat): nat
    requires i < |wants|
  {
    SumMonotone(wants, i, i + 1);
    Min(Sum(wants[..i + 1]), amount) - Min(Sum(wants[..i]), amount)
  }

  lemma {:induction false} FillPrefix(wants: seq<nat>, amount: nat, k: nat)
    requires k <= |wants|
    ensures Sum(Fill(wants, amount)[..k]) == Min(Sum(wants[..k]), amount)
  {
    if k > 0 {
      FillPrefix(wants, amount, k - 1);
      SumStep(Fill(wants, amount), k - 1);
      SumMonotone(wants, k - 1, k);
    }
  }

  /** No place gets more than it wants, and the places together get what is there to hand out; a place gets
      something only once those before it have all they want. */
  lemma FillIsExact(wants: seq<nat>, amount: nat)
    ensures forall i | 0 <= i < |wants| :: Fill(wants, amount)[i] <= wants[i]
    ensures InListOrder(wants, Fill(wants, amount))
    ensures Sum(Fill(wants, amount)) == Min(Sum(wants), amount)
    ensures Sum(wants) <= amount ==> Fill(wants, amount) == wants
  {
    forall i | 0 <= i < |wants| ensures Fill(wants, amount)[i] <= wants[i] {
      SumStep(wants, i);
    }
    forall i, j | 0 <= i < j < |wants| && Fill(wants, amount)[j] > 0 ensures Fill(wants, amount)[i] == wants[i] {
      SumStep(wants, i);
      SumStep(wants, j);
      SumMonotone(wants, i + 1, j);
    }
    FillPrefix(wants, amount, |wants|);
    assert wants[..|wants|] == wants;
    assert Fill(wants, amount)[..|wants|] == Fill(wants, amount);
    if Sum(wants) <= amount {
      SumPointwise(Fill(wants, amount), wants);
    }
  }

  ghost predicate InListOrder(wants: seq<nat>, parts: seq<nat>)
    requires |wants| == |parts|
  {
    forall i, j | 0 <= i < j < |wants| && parts[j] > 0 :: parts[i] == wants[i]
  }

  /** What each validator lacks to its target. */
  function Deficits(current: seq<nat>, target: seq<nat>): (d: seq<nat>)
    requires |current| == |target|
    ensures |d| == |current|
  {
    seq(|current|, i requires 0 <= i < |current| => if target[i] < current[i] then 0 else target[i] - current[i])
  }

  /** What each validator holds above its target. */
  function Excesses(current: seq<nat>, target: seq<nat>): (d: seq<nat>)
    requires |current| == |target|
    ensures |d| == |current|
  {
    seq(|current|, i requires 0 <= i < |current| => current[i] - Min(target[i], current[i]))
  }

  lemma {:induction false} DeficitsCover(current: seq<nat>, target: seq<nat>)
    requires |current| == |target|
    ensures Sum(target) <= Sum(current) + Sum(Deficits(current, target))
  {
    if current != [] {
      var n := |current| - 1;
      DeficitsCover(current[..n], target[..n]);
      assert Deficits(current, target)[..n] == Deficits(current[..n], target[..n]);
    }
  }

  lemma ExcessesAreDeficits(current: seq<nat>, target: seq<nat>)
    requires |current| == |target|
    ensures Excesses(current, target) == Deficits(target, current)
  {
  }

  // ---------------------------------------------------------------- the two allocators

  function Delegations(amount: nat, current: seq<nat>): (r: Result<seq<nat>>)
    ensures r.Ok? ==> |r.value| == |current|
  {
    if current == [] then Err(EmptyValidatorSet)
    else if Sum(current) + amount > U128_MAX then Err(Panic)
    else Ok(Fill(Deficits(current, Targets(Sum(current) + amount, |current|)), amount))
  }

  function Undelegations(amount: nat, current: seq<nat>): (r: Result<seq<nat>>)
    ensures r.Ok? ==> |r.value| == |current|
  {
    if current == [] then Err(EmptyValidatorSet)
    else if Sum(current) > U128_MAX then Err(Panic)
    else if amount > Sum(current) then Err(ExceedUndelegation)
    else if amount == 0 then Err(DistributionFailed)
    else Ok(Fill(Excesses(current, Targets(Sum(current) - amount, |current|)), amount))
  }

  function Raised(current: seq<nat>, change: seq<nat>): seq<nat>
    requires |current| == |change|
  {
    seq(|current|, i requires 0 <= i < |current| => current[i] + change[i])
  }

  function Lowered(current: seq<nat>, change: seq<nat>): seq<nat>
    requires |current| == |change|
    requires forall i | 0 <= i < |change| :: change[i] <= current[i]
  {
    seq(|current|, i requires 0 <= i < |current| => current[i] - change[i])
  }

  lemma {:induction false} RaisedSum(current: seq<nat>, change: seq<nat>)
    requires |current| == |change|
    ensures Sum(Raised(current, change)) == Sum(current) + Sum(change)
  {
    if current != [] {
      var n := |current| - 1;
      RaisedSum(current[..n], change[..n]);
      assert Raised(current, change)[..n] == Raised(current[..n], change[..n]);
    }
  }

  /** `parts` hand out `amount` exactly, and lift no validator above its target unless it was there
      already; if none was above, all of them end at their targets. A validator gets something only once those
      listed before it are at their targets. */
  ghost predicate GivesExactly(amount: nat, current: seq<nat>, target: seq<nat>, parts: seq<nat>) {
    && |current| == |target| == |parts|
    && Sum(parts) == amount
    && (forall i | 0 <= i < |current| :: current[i] + parts[i] <= Max(current[i], target[i]))
    && (forall i, j | 0 <= i < j < |current| && parts[j] > 0 :: target[i] <= current[i] + parts[i])
    && ((forall i | 0 <= i < |current| :: current[i] <= target[i]) ==> Raised(current, parts) == target)
  }

  /** `parts` take `amount` away exactly, no more from any validator than it has, and leave none
      below its target unless it was there already; if none was below, all end at their targets. Something is
      taken from a validator only once those listed before it are at their targets. */
  ghost predicate TakesExactly(amount: nat, current: seq<nat>, target: seq<nat>, parts: seq<nat>) {
    && |current| == |target| == |parts|
    && Sum(parts) == amount
    && (forall i | 0 <= i < |current| :: parts[i] <= current[i])
    && (forall i | 0 <= i < |current| :: Min(current[i], target[i]) <= current[i] - parts[i])
    && (forall i, j | 0 <= i < j < |current| && parts[j] > 0 :: current[i] - parts[i] <= target[i])
    && ((forall i | 0 <= i < |current| :: target[i] <= current[i]) ==> Lowered(current, parts) == target)
  }

  lemma FillTowardsTarget(amount: nat, current: seq<nat>, target: seq<nat>)
    requires |current| == |target| && Sum(target) == Sum(current) + amount
    ensures GivesExactly(amount, current, target, Fill(Deficits(current, target), amount))
    ensures Sum(Raised(current, Fill(Deficits(current, target), amount))) == Sum(target)
  {
    hide Fill, Sum;
    var parts := Fill(Deficits(current, target), amount);
    DeficitsCover(current, target);
    FillIsExact(Deficits(current, target), amount);
    RaisedSum(current, parts);
    forall i, j | 0 <= i < j < |current| && parts[j] > 0 ensures target[i] <= current[i] + parts[i] {
      assert parts[i] == Deficits(current, target)[i];
    }
    hide InListOrder;
    if forall i | 0 <= i < |current| :: current[i] <= target[i] {
      SumPointwise(Raised(current, parts), target);
    }
  }

  lemma TakeTowardsTarget(amount: nat, current: seq<nat>, target: seq<nat>)
    requires |current| == |target| && Sum(current) == Sum(target) + amount
    ensures var parts := Fill(Excesses(current, target), amount);
            TakesExactly(amount, current, target, parts) && Sum(Lowered(current, parts)) == Sum(target)
  {
    hide Fill, Sum;
    var parts := Fill(Excesses(current, target), amount);
    ExcessesAreDeficits(current, target);
    DeficitsCover(target, current);
    FillIsExact(Excesses(current, target), amount);
    LoweredSum(current, parts);
    forall i, j | 0 <= i < j < |current| && parts[j] > 0 ensures current[i] - parts[i] <= target[i] {
      assert parts[i] == Excesses(current, target)[i];
    }
    hide Excesses, InListOrder;
    if forall i | 0 <= i < |current| :: target[i] <= current[i] {
      SumPointwise(target, Lowered(current, parts));
    }
  }

  /** Every delegation request is met in full, for a non-empty list whose total stays in 128 bits. */
  lemma DelegationsTotalAndExact(amount: nat, current: seq<nat>)
    ensures Delegations(amount, current).Ok? <==> current != [] && Sum(current) + amount <= U128_MAX
    ensures Delegations(amount, current).Ok? ==>
              GivesExactly(amount, current, Targets(Sum(current) + amount, |current|),
                           Delegations(amount, current).value)
  {
    if Delegations(amount, current).Ok? {
      TargetsSplitEvenly(Sum(current) + amount, |current|);
      FillTowardsTarget(amount, current, Targets(Sum(current) + amount, |current|));
    }
  }

  /** Every undelegation of a positive amount within the total is met in full. */
  lemma UndelegationsTotalAndExact(amount: nat, current: seq<nat>)
    ensures Undelegations(amount, current).Ok? <==> current != [] && 0 < amount <= Sum(current) <= U128_MAX
    ensures Undelegations(amount, current).Ok? ==>
              TakesExactly(amount, current, Targets(Sum(current) - amount, |current|),
                           Undelegations(amount, current).value)
  {
    if Undelegations(amount, current).Ok? {
      TargetsSplitEvenly(Sum(current) - amount, |current|);
      TakeTowardsTarget(amount, current, Targets(Sum(current) - amount, |current|));
    }
  }

  lemma DelegationsAddUp(amount: nat, current: seq<nat>)
    requires Delegations(amount, current).Ok?
    ensures Sum(Delegations(amount, current).value) == amount
  {
    DelegationsTotalAndExact(amount, current);
  }

  lemma UndelegationsAddUp(amount: nat, current: seq<nat>)
    requires Undelegations(amount, current).Ok?
    ensures Sum(Undelegations(amount, current).value) == amount > 0
  {
    UndelegationsTotalAndExact(amount, current);
  }

  lemma LoweredSum(current: seq<nat>, change: seq<nat>)
    requires |current| == |change|
    requires forall i | 0 <= i < |change| :: change[i] <= current[i]
    ensures Sum(Lowered(current, change)) == Sum(current) - Sum(change)
  {
    RaisedSum(Lowered(current, change), change);
    assert Raised(Lowered(current, change), change) == current;
  }

  // ---------------------------------------------------------------- balance

  /** No two validators differ by more than `k`. */
  ghost predicate SpreadAtMost(s: seq<nat>, k: nat) {
    forall i, j | 0 <= i < |s| && 0 <= j < |s| :: s[i] <= s[j] + k
  }

  /** Moving towards even targets, never past them, keeps the spread. */
  lemma MovingTowardsEvenKeepsSpread(before: seq<nat>, after: seq<nat>, target: seq<nat>, k: nat)
    requires |before| == |after| == |target| && Sum(after) == Sum(target)
    requires SpreadAtMost(target, 1) && SpreadAtMost(before, k)
    requires || (forall i | 0 <= i < |before| :: before[i] <= after[i] <= Max(before[i], target[i]))
             || (forall i | 0 <= i < |before| :: Min(before[i], target[i]) <= after[i] <= before[i])
    ensures SpreadAtMost(after, Max(k, 1))
  {
    forall i, j | 0 <= i < |after| && 0 <= j < |after| ensures after[i] <= after[j] + Max(k, 1) {
      if after[j] < target[j] {
        // another stayed above its target, so it did not move up, and after[i] is no higher
        SumBalances(after, target, j);
        var above :| 0 <= above < |after| && after[above] > target[above];
        assert before[above] <= before[j] + k;
        assert before[i] <= before[j] + k;
        assert target[i] <= target[above] + 1;
      }
      if target[i] < after[i] {
        // another stayed below its target, so it did not move down, and after[j] is no lower
        SumBalances(target, after, i);
        var below :| 0 <= below < |after| && target[below] > after[below];
        assert before[i] <= before[below] + k;
        assert before[i] <= before[j] + k;
        assert target[below] <= target[j] + 1;
      }
      assert target[i] <= target[j] + 1;
    }
  }

  /** Delegating never widens the gap between two validators beyond the widest gap there was, or one coin. */
  lemma DelegationsKeepBalance(amount: nat, current: seq<nat>, k: nat)
    requires Delegations(amount, current).Ok?
    requires SpreadAtMost(current, k)
    ensures |Delegations(amount, current).value| == |current|
    ensures SpreadAtMost(Raised(current, Delegations(amount, current).value), Max(k, 1))
  {
    hide Fill, Deficits, Sum, Targets;
    var target := Targets(Sum(current) + amount, |current|);
    TargetsSplitEvenly(Sum(current) + amount, |current|);
    FillTowardsTarget(amount, current, target);
    assert Delegations(amount, current).value == Fill(Deficits(current, target), amount);
    hide Delegations;
    MovingTowardsEvenKeepsSpread(current, Raised(current, Delegations(amount, current).value), target, k);
  }

  /** Undelegating never widens the gap between two validators beyond the widest gap there was, or one coin. */
  lemma UndelegationsKeepBalance(amount: nat, current: seq<nat>, k: nat)
    requires Undelegations(amount, current).Ok?
    requires SpreadAtMost(current, k)
    ensures |Undelegations(amount, current).value| == |current|
    ensures forall i | 0 <= i < |current| :: Undelegations(amount, current).value[i] <= current[i]
    ensures SpreadAtMost(Lowered(current, Undelegations(amount, current).value), Max(k, 1))
  {
    hide Fill, Excesses, Sum, Targets;
    var target := Targets(Sum(current) - amount, |current|);
    TargetsSplitEvenly(Sum(current) - amount, |current|);
    TakeTowardsTarget(amount, current, target);
    assert Undelegations(amount, current).value == Fill(Excesses(current, target), amount);
    hide Undelegations;
    MovingTowardsEvenKeepsSpread(current, Lowered(current, Undelegations(amount, current).value), target, k);
  }

  // ---------------------------------------------------------------- the loops

  /** What is left to hand out when the walk comes to place `i`. */
  function Left(wants: seq<nat>, amount: nat, i: nat): nat
    requires i <= |wants|
  {
    amount - Min(Sum(wants[..i]), amount)
  }

  lemma FillStep(wants: seq<nat>, amount: nat, i: nat)
    requires i < |wants|
    ensures var left := Left(wants, amount, i); Fill(wants, amount)[i] == if wants[i] > left then left else wants[i]
    ensures Left(wants, amount, i + 1) == Left(wants, amount, i) - Fill(wants, amount)[i]
  {
    SumStep(wants, i);
  }

  /** Once the amount is used up, the rest of the list gets nothing. */
  lemma FillRest(wants: seq<nat>, amount: nat, i: nat)
    requires i <= |wants| && Left(wants, amount, i) == 0
    ensures forall j | i <= j < |wants| :: Fill(wants, amount)[j] == 0
  {
    forall j | i <= j < |wants| ensures Fill(wants, amount)[j] == 0 {
      SumMonotone(wants, i, j);
      SumStep(wants, j);
    }
  }

  method CalculateDelegations(amount: nat, validators: seq<ValidatorResponse>) returns (r: Result<seq<nat>>)
    ensures r == Delegations(amount, Totals(validators))
  {
    if validators == [] {
      return Err(EmptyValidatorSet);
    }
    var totalDelegated := Sum(Totals(validators));
    if totalDelegated + amount > U128_MAX {
      return Err(Panic);
    }
    TargetsSplitEvenly(totalDelegated + amount, |validators|);
    r := DelegateToTargets(amount, validators, Targets(totalDelegated + amount, |validators|));
  }

  /** The loop over the validators of `CalculateDelegations`; it never falls through to the error. */
  method DelegateToTargets(amount: nat, validators: seq<ValidatorResponse>, target: seq<nat>)
    returns (r: Result<seq<nat>>)
    requires |validators| == |target| > 0 && Sum(target) == Sum(Totals(validators)) + amount
    ensures r == Ok(Fill(Deficits(Totals(validators), target), amount))
  {
    var n := |validators|;
    ghost var current := Totals(validators);
    ghost var wants := Deficits(current, target);
    var amtToDelegate := amount;
    assert Left(wants, amount, 0) == amount;
    hide Sum, Fill, Left;
    var delegations := new nat[n](i => 0);
    for index := 0 to n
      invariant forall j | 0 <= j < index :: delegations[j] == Fill(wants, amount)[j]
      invariant forall j | index <= j < n :: delegations[j] == 0
      invariant amtToDelegate == Left(wants, amount, index)
      invariant amtToDelegate > 0 || forall j | 0 <= j < index :: target[j] < current[j]
    {
      FillStep(wants, amount, index);
      if target[index] < validators[index].totalDelegated {
        continue;
      }
      var toDelegate := target[index] - validators[index].totalDelegated;
      if toDelegate > amtToDelegate {
        toDelegate := amtToDelegate;
      }
      delegations[index] := toDelegate;
      amtToDelegate := amtToDelegate - toDelegate;
      if amtToDelegate == 0 {
        FillRest(wants, amount, index + 1);
        assert delegations[..] == Fill(wants, amount);
        return Ok(delegations[..]);
      }
    }
    NotAllAboveTarget(amount, current, target);
    r := Err(DistributionFailed);
  }

  /** The deficits use up the amount, and not every validator can be above its target. */
  lemma NotAllAboveTarget(amount: nat, current: seq<nat>, target: seq<nat>)
    requires |current| == |target| > 0 && Sum(target) == Sum(current) + amount
    ensures Left(Deficits(current, target), amount, |current|) == 0
    ensures !forall j | 0 <= j < |current| :: target[j] < current[j]
  {
    DeficitsCover(current, target);
    assert Deficits(current, target)[..|current|] == Deficits(current, target);
    if forall j | 0 <= j < |current| :: target[j] < current[j] {
      SumPointwise(target, current);
      assert false;
    }
  }

  method CalculateUndelegations(amount: nat, validators: seq<ValidatorResponse>) returns (r: Result<seq<nat>>)
    ensures r == Undelegations(amount, Totals(validators))
  {
    if validators == [] {
      return Err(EmptyValidatorSet);
    }
    var totalDelegated := Sum(Totals(validators));
    if totalDelegated > U128_MAX {
      return Err(Panic);
    }
    if amount > totalDelegated {
      return Err(ExceedUndelegation);
    }
    var n := |validators|;
    var held := new nat[n](i requires 0 <= i < n => validators[i].totalDelegated);
    var undelegations := new nat[n](i => 0);
    var left := amount;
    r := Err(DistributionFailed);
    ghost var current := Totals(validators);
    ghost var spec := Undelegations(amount, current);
    assert held[..] == current;
    assert spec == if amount == 0 then r else Ok(Fill(Excesses(current, Targets(totalDelegated - amount, n)), amount));
    hide Undelegations, Sum, Fill, Excesses, Targets;
    while left != 0
      invariant if r.Ok? then left == 0 && r == spec else left == amount
      invariant r.Ok? || r == Err(DistributionFailed)
      invariant left != 0 ==> totalDelegated == Sum(current) && held[..] == current
      invariant left != 0 ==> forall j | 0 <= j < n :: undelegations[j] == 0
      decreases left
    {
      TargetsSplitEvenly(totalDelegated - left, n);
      left, totalDelegated := UndelegateToTargets(left, totalDelegated, held, undelegations,
                                                  Targets(totalDelegated - left, n));
      if left == 0 {
        assert undelegations[..] == spec.value;
        r := Ok(undelegations[..]);
      }
    }
  }

  /** One pass over the validators of `CalculateUndelegations`; the amount is always used up in it. */
  method UndelegateToTargets(amount: nat, total: nat, held: array<nat>, undelegations: array<nat>, target: seq<nat>)
    returns (left: nat, totalLeft: nat)
    requires held != undelegations && held.Length == undelegations.Length == |target|
    requires 0 < amount <= total && Sum(held[..]) == total && Sum(target) == total - amount
    requires forall j | 0 <= j < held.Length :: undelegations[j] == 0
    modifies held, undelegations
    ensures left == 0 && totalLeft == total - amount
    ensures forall j | 0 <= j < undelegations.Length
            :: undelegations[j] == Fill(Excesses(old(held[..]), target), amount)[j]
  {
    var n := held.Length;
    ghost var current := held[..];
    ghost var wants := Excesses(current, target);
    ghost var parts := Fill(wants, amount);
    left, totalLeft := amount, total;
    assert Left(wants, amount, 0) == amount;
    hide Sum, Fill, Left, Excesses, Min;
    for index := 0 to n
      invariant forall j | 0 <= j < index :: undelegations[j] == parts[j]
      invariant forall j | index <= j < n :: undelegations[j] == 0 && held[j] == current[j]
      invariant left == Left(wants, amount, index)
      invariant totalLeft == total - (amount - left)
      invariant left > 0
    {
      ExcessAt(current, target, index);
      FillStep(wants, amount, index);
      var toUndelegate := held[index] - Min(target[index], held[index]);
      if toUndelegate > left {
        toUndelegate := left;
      }
      undelegations[index] := undelegations[index] + toUndelegate;
      left := left - toUndelegate;
      totalLeft := totalLeft - toUndelegate;
      held[index] := held[index] - toUndelegate;
      if left == 0 {
        FillRest(wants, amount, index + 1);
        return;
      }
    }
    ExcessesCover(amount, current, target);
  }

  lemma ExcessAt(current: seq<nat>, target: seq<nat>, i: nat)
    requires |current| == |target| && i < |current|
    ensures Min(target[i], current[i]) <= current[i]
    ensures Excesses(current, target)[i] == current[i] - Min(target[i], current[i])
  {
  }

  lemma ExcessesCover(amount: nat, current: seq<nat>, target: seq<nat>)
    requires |current| == |target| && Sum(current) == Sum(target) + amount
    ensures Left(Excesses(current, target), amount, |current|) == 0
  {
    ExcessesAreDeficits(current, target);
    DeficitsCover(target, current);
    assert Excesses(current, target)[..|current|] == Excesses(current, target);
  }
}
