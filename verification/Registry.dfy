/** The validators registry (contracts/lst_validators_registry/src/contract.rs): which validators are
    delegated to, which were removed, and the redelegation of what the removed ones still hold. An address can
    be given in another form than the chain's own; the registry converts it for its keys, but keeps a validator
    that is added as it was given. The conversion itself is a parameter. */
module ValidatorsRegistry {
  import opened Wrappers
  import opened Sums
  import opened Delegation
  import opened HubTypes
  import W = World

  datatype Validator = Validator(address: Addr)

  /** One entry of the chain's answer about the hub's delegations. */
  datatype Held = Held(validator: Addr, amount: nat)

  /** The registry's storage. */
  datatype Lists = Lists(owner: Addr, registry: map<Addr, Validator>, excluded: map<Addr, bool>)

  /** What the hub is told to move away from a removed validator. */
  datatype Redelegation = Redelegation(source: Addr, moves: seq<(Addr, nat)>)

  // ---------------------------------------------------------------- adding and removing

  /** `found` is the chain's own address of the validator, if the chain knows it: the key. What is stored is
      the validator as the caller gave it. */
  function Added(l: Lists, sender: Addr, validator: Validator, found: Option<Addr>): Result<Lists> {
    if sender != l.owner then Err(Unauthorized)
    else if found.Some? then
      Ok(l.(registry := l.registry[found.value := validator], excluded := l.excluded - {found.value}))
    else Ok(l)
  }

  /** `address` is the given one, converted. */
  function Removed(l: Lists, sender: Addr, address: Addr): Result<Lists> {
    if sender != l.owner then Err(Unauthorized)
    else Ok(l.(registry := l.registry - {address}, excluded := l.excluded[address := true]))
  }

  /** Instantiation stores the chain's own address. `found` has that of each validator given, if there is one. */
  function Instantiated(owner: Addr, found: seq<Option<Addr>>): Lists {
    if found == [] then Lists(owner, map[], map[])
    else
      var l := Instantiated(owner, found[..|found| - 1]);
      var a := found[|found| - 1];
      if a.Some? then l.(registry := l.registry[a.value := Validator(a.value)]) else l
  }

  /** No validator is both registered and excluded. */
  ghost predicate Separate(l: Lists) {
    l.registry.Keys !! l.excluded.Keys
  }

  /** Every validator is stored under its own address. */
  ghost predicate Normal(l: Lists) {
    forall a | a in l.registry :: l.registry[a].address == a
  }

  datatype Call =
    | Add(sender: Addr, validator: Validator, found: Option<Addr>)
    | Remove(sender: Addr, address: Addr)

  function Called(l: Lists, call: Call): Lists {
    var r := match call
      case Add(sender, validator, found) => Added(l, sender, validator, found)
      case Remove(sender, address) => Removed(l, sender, address);
    if r.Ok? then r.value else l
  }

  function AfterCalls(l: Lists, calls: seq<Call>): Lists {
    if calls == [] then l else Called(AfterCalls(l, calls[..|calls| - 1]), calls[|calls| - 1])
  }

  lemma {:induction false} InstantiatedIsSeparate(owner: Addr, found: seq<Option<Addr>>)
    ensures var l := Instantiated(owner, found); Separate(l) && Normal(l) && l.excluded == map[]
    ensures forall a :: a in Instantiated(owner, found).registry <==> Some(a) in found
  {
    if found != [] {
      var n := |found| - 1;
      InstantiatedIsSeparate(owner, found[..n]);
      assert found == found[..n] + [found[n]];
    }
  }

  /** The validator was given in the chain's own form. */
  ghost predicate InChainForm(call: Call) {
    call.Add? && call.found.Some? ==> call.validator.address == call.found.value
  }

  /** After any calls the two lists are disjoint; if every validator added was given in the chain's own form,
      each is stored under its own address. */
  lemma {:induction false} CallsKeepSeparate(l: Lists, calls: seq<Call>)
    requires Separate(l)
    ensures Separate(AfterCalls(l, calls)) && AfterCalls(l, calls).owner == l.owner
    ensures Normal(l) && (forall c | c in calls :: InChainForm(c)) ==> Normal(AfterCalls(l, calls))
  {
    if calls != [] {
      var n := |calls| - 1;
      CallsKeepSeparate(l, calls[..n]);
      assert calls[n] in calls;
    }
  }

  /** The call succeeds, and puts `a` on one of the lists. */
  ghost predicate Places(owner: Addr, call: Call, a: Addr) {
    match call
    case Add(sender, _, found) => sender == owner && found == Some(a)
    case Remove(sender, b) => sender == owner && b == a
  }

  /** Call `i` is the last of them that places `a`. */
  ghost predicate PlacesLast(owner: Addr, calls: seq<Call>, a: Addr, i: nat) {
    && i < |calls| && Places(owner, calls[i], a)
    && forall j | i < j < |calls| :: !Places(owner, calls[j], a)
  }

  /** Call `i` put `a` where `l` has it. */
  ghost predicate PutBy(l: Lists, calls: seq<Call>, a: Addr, i: nat)
    requires i < |calls|
  {
    if calls[i].Add? then a in l.registry && a !in l.excluded && l.registry[a] == calls[i].validator
    else a !in l.registry && a in l.excluded
  }

  ghost predicate SamePlace(l: Lists, m: Lists, a: Addr) {
    && (a in m.registry <==> a in l.registry) && (a in m.excluded <==> a in l.excluded)
    && (a in l.registry ==> m.registry[a] == l.registry[a])
  }

  /** After any calls every validator is on the list its own last successful call put it on, as it was given
      there, however many calls for others came after, and where it was if there was none. */
  lemma {:induction false} LastCallDecides(l: Lists, calls: seq<Call>, a: Addr)
    requires Separate(l)
    ensures forall i: nat | PlacesLast(l.owner, calls, a, i) :: PutBy(AfterCalls(l, calls), calls, a, i)
    ensures (forall i | 0 <= i < |calls| :: !Places(l.owner, calls[i], a)) ==> SamePlace(l, AfterCalls(l, calls), a)
  {
    if calls != [] {
      var n := |calls| - 1;
      var head := calls[..n];
      LastCallDecides(l, head, a);
      CallsKeepSeparate(l, head);
      CallPlaces(AfterCalls(l, head), calls[n], a);
      hide Called, Places, SamePlace, Separate;
      forall i: nat | PlacesLast(l.owner, calls, a, i)
        ensures PutBy(AfterCalls(l, calls), calls, a, i)
      {
        if i < n {
          assert !Places(l.owner, calls[n], a);
          assert PlacesLast(l.owner, head, a, i);
          KeepsPlace(AfterCalls(l, head), AfterCalls(l, calls), calls, a, i);
        }
      }
      if forall i | 0 <= i < |calls| :: !Places(l.owner, calls[i], a) {
        assert forall i | 0 <= i < n :: head[i] == calls[i];
        SameTwice(l, AfterCalls(l, head), AfterCalls(l, calls), a);
      }
    }
  }

  lemma CallPlaces(l: Lists, call: Call, a: Addr)
    requires Separate(l)
    ensures Places(l.owner, call, a) ==> PutBy(Called(l, call), [call], a, 0)
    ensures !Places(l.owner, call, a) ==> SamePlace(l, Called(l, call), a)
  {
  }

  lemma KeepsPlace(l: Lists, m: Lists, calls: seq<Call>, a: Addr, i: nat)
    requires i < |calls| && PutBy(l, calls, a, i) && SamePlace(l, m, a)
    ensures PutBy(m, calls, a, i)
  {
  }

  lemma SameTwice(l: Lists, m: Lists, n: Lists, a: Addr)
    requires SamePlace(l, m, a) && SamePlace(m, n, a)
    ensures SamePlace(l, n, a)
  {
  }

  // ---------------------------------------------------------------- the delegations of the validators

  /** The answer as a map; a later entry for a validator replaces an earlier one. */
  function HeldMap(held: seq<Held>): map<Addr, nat> {
    if held == [] then map[]
    else
      var last := held[|held| - 1];
      HeldMap(held[..|held| - 1])[last.validator := last.amount]
  }

  /** Entry `i` is the answer's last one for this validator. */
  ghost predicate LastFor(held: seq<Held>, a: Addr, i: nat) {
    && i < |held| && held[i].validator == a
    && forall j | i < j < |held| :: held[j].validator != a
  }

  /** The answer shows that this validator holds `amount`: in its last entry for it, or by having none. */
  ghost predicate Shows(held: seq<Held>, a: Addr, amount: nat) {
    || (exists i: nat :: LastFor(held, a, i) && held[i].amount == amount)
    || (amount == 0 && forall i | 0 <= i < |held| :: held[i].validator != a)
  }

  /** The map has the validators of the answer, each with the amount of its last entry. */
  lemma {:induction false} HeldMapShows(held: seq<Held>, a: Addr)
    ensures a in HeldMap(held) <==> exists i :: 0 <= i < |held| && held[i].validator == a
    ensures forall n: nat :: Shows(held, a, n) <==> n == W.At(HeldMap(held), a)
  {
    if held != [] {
      var n := |held| - 1;
      var head := held[..n];
      HeldMapShows(head, a);
      if held[n].validator == a {
        assert LastFor(held, a, n);
        forall i: nat | LastFor(held, a, i) ensures i == n {
        }
        assert held[n].validator == a;
      } else {
        ShowsLess(held, a);
      }
    }
  }

  lemma ShowsLess(held: seq<Held>, a: Addr)
    requires held != [] && held[|held| - 1].validator != a
    ensures forall n: nat :: Shows(held, a, n) <==> Shows(held[..|held| - 1], a, n)
  {
    var head := held[..|held| - 1];
    forall i: nat ensures LastFor(held, a, i) <==> LastFor(head, a, i) {
      if LastFor(head, a, i) {
        assert held[i] == head[i];
        forall j | i < j < |held| ensures held[j].validator != a {
          assert j < |head| ==> held[j] == head[j];
        }
      }
    }
    forall n: nat ensures Shows(held, a, n) <==> Shows(head, a, n) {
      if Shows(held, a, n) {
        if i: nat :| LastFor(held, a, i) && held[i].amount == n {
          assert LastFor(head, a, i) && head[i].amount == n;
        }
      }
      if Shows(head, a, n) {
        if i: nat :| LastFor(head, a, i) && head[i].amount == n {
          assert LastFor(held, a, i) && held[i].amount == n;
        } else {
          forall i | 0 <= i < |held| ensures held[i].validator != a {
            assert i < |head| ==> held[i] == head[i];
          }
        }
      }
    }
  }

  /** `order` walks the keys of the storage map, each once. */
  ghost predicate Walks(order: seq<Addr>, keys: set<Addr>) {
    && (forall a :: a in order <==> a in keys)
    && (forall i, j | 0 <= i < j < |order| :: order[i] != order[j])
  }

  lemma WalksNothing(order: seq<Addr>, keys: set<Addr>)
    requires Walks(order, keys)
    ensures order == [] <==> keys == {}
  {
    if keys != {} {
      var a :| a in keys;
      assert a in order;
    }
    if order != [] {
      var first := order[0];
      assert first in order;
    }
  }

  function Response(registry: map<Addr, Validator>, held: map<Addr, nat>, key: Addr): ValidatorResponse
    requires key in registry
  {
    var a := registry[key].address;
    ValidatorResponse(if a in held then held[a] else 0, a)
  }

  function Responses(registry: map<Addr, Validator>, held: map<Addr, nat>,
                     order: seq<Addr>): (s: seq<ValidatorResponse>)
    requires forall a | a in order :: a in registry
    ensures |s| == |order|
  {
    seq(|order|, i requires 0 <= i < |order| => Response(registry, held, order[i]))
  }

  /** The library's stable sort by delegated amount. */
  function SortByTotal(s: seq<ValidatorResponse>): (r: seq<ValidatorResponse>)
    ensures |r| == |s|
  {
    if s == [] then [] else Insert(SortByTotal(s[..|s| - 1]), s[|s| - 1])
  }

  function Insert(sorted: seq<ValidatorResponse>, v: ValidatorResponse): (r: seq<ValidatorResponse>)
    ensures |r| == |sorted| + 1
  {
    if sorted == [] || sorted[|sorted| - 1].totalDelegated <= v.totalDelegated then sorted + [v]
    else Insert(sorted[..|sorted| - 1], v) + [sorted[|sorted| - 1]]
  }

  ghost predicate Ascending(s: seq<ValidatorResponse>) {
    forall i, j | 0 <= i < j < |s| :: s[i].totalDelegated <= s[j].totalDelegated
  }

  lemma {:induction false} InsertKeepsAscending(sorted: seq<ValidatorResponse>, v: ValidatorResponse)
    requires Ascending(sorted)
    ensures Ascending(Insert(sorted, v))
    ensures forall u | u in Insert(sorted, v) :: u == v || u in sorted
  {
    var n := |sorted| - 1;
    if sorted != [] && sorted[n].totalDelegated > v.totalDelegated {
      InsertKeepsAscending(sorted[..n], v);
      var head := Insert(sorted[..n], v);
      forall i | 0 <= i < |head| ensures head[i].totalDelegated <= sorted[n].totalDelegated {
        assert head[i] in head;
      }
    }
  }

  lemma {:induction false} SortIsAscending(s: seq<ValidatorResponse>)
    ensures Ascending(SortByTotal(s))
  {
    if s != [] {
      SortIsAscending(s[..|s| - 1]);
      InsertKeepsAscending(SortByTotal(s[..|s| - 1]), s[|s| - 1]);
    }
  }

  lemma {:induction false} InsertKeeps(sorted: seq<ValidatorResponse>, v: ValidatorResponse)
    ensures multiset(Insert(sorted, v)) == multiset(sorted) + multiset{v}
  {
    var n := |sorted| - 1;
    if sorted != [] && sorted[n].totalDelegated > v.totalDelegated {
      InsertKeeps(sorted[..n], v);
      assert sorted == sorted[..n] + [sorted[n]];
    }
  }

  /** Sorting loses and invents no validator. */
  lemma {:induction false} SortKeeps(s: seq<ValidatorResponse>)
    ensures multiset(SortByTotal(s)) == multiset(s)
  {
    if s != [] {
      hide Insert;
      var n := |s| - 1;
      SortKeeps(s[..n]);
      InsertKeeps(SortByTotal(s[..n]), s[n]);
      assert SortByTotal(s) == Insert(SortByTotal(s[..n]), s[n]);
      hide SortByTotal;
      assert s == s[..n] + [s[n]];
    }
  }

  /** The validators with this much delegated, in their order. */
  ghost function WithTotal(s: seq<ValidatorResponse>, total: nat): seq<ValidatorResponse> {
    if s == [] then []
    else
      WithTotal(s[..|s| - 1], total) + if s[|s| - 1].totalDelegated == total then [s[|s| - 1]] else []
  }

  lemma {:induction false} InsertIsStable(sorted: seq<ValidatorResponse>, v: ValidatorResponse, total: nat)
    ensures WithTotal(Insert(sorted, v), total)
         == WithTotal(sorted, total) + if v.totalDelegated == total then [v] else []
  {
    var n := |sorted| - 1;
    if sorted != [] && sorted[n].totalDelegated > v.totalDelegated {
      InsertIsStable(sorted[..n], v, total);
      assert (Insert(sorted[..n], v) + [sorted[n]])[..n + 1] == Insert(sorted[..n], v);
    } else {
      assert (sorted + [v])[..|sorted|] == sorted;
    }
  }

  /** Validators with the same total keep their order. */
  lemma {:induction false} SortIsStable(s: seq<ValidatorResponse>, total: nat)
    ensures WithTotal(SortByTotal(s), total) == WithTotal(s, total)
  {
    if s != [] {
      SortIsStable(s[..|s| - 1], total);
      InsertIsStable(SortByTotal(s[..|s| - 1]), s[|s| - 1], total);
    }
  }

  function ValidatorsDelegation(l: Lists, held: seq<Held>, order: seq<Addr>): seq<ValidatorResponse>
    requires forall a | a in order :: a in l.registry
  {
    SortByTotal(Responses(l.registry, HeldMap(held), order))
  }

  /** Where every validator is stored under its own address, the registry's answer lists each of them once,
      with what the chain holds for it, the least delegated first: what the hub relies on when it delegates
      and undelegates. */
  lemma AnswersTruly(l: Lists, held: seq<Held>, order: seq<Addr>)
    requires Normal(l) && Walks(order, l.registry.Keys)
    ensures var answer := ValidatorsDelegation(l, held, order);
            && |answer| == |order| && Ascending(answer)
            && (forall i | 0 <= i < |answer| :: Truthful(answer[i], l, held))
            && (forall i, j | 0 <= i < j < |answer| :: answer[i].address != answer[j].address)
  {
    hide SortByTotal, HeldMap, Responses, Truthful, Ascending, Normal, Shows;
    var listed := ListedTruly(l, held, order);
    SortKeeps(listed);
    SortIsAscending(listed);
    hide Walks;
    SameTruth(listed, SortByTotal(listed), l, held);
  }

  lemma ListedTruly(l: Lists, held: seq<Held>, order: seq<Addr>) returns (listed: seq<ValidatorResponse>)
    requires Normal(l) && Walks(order, l.registry.Keys)
    ensures listed == Responses(l.registry, HeldMap(held), order)
    ensures forall i | 0 <= i < |listed| :: Truthful(listed[i], l, held)
    ensures forall i, j | 0 <= i < j < |listed| :: listed[i].address != listed[j].address
  {
    hide HeldMap, Shows;
    listed := Responses(l.registry, HeldMap(held), order);
    forall i | 0 <= i < |listed| ensures Truthful(listed[i], l, held) {
      HeldMapShows(held, listed[i].address);
    }
  }

  /** A registered validator is listed under its own address, with what the chain holds for it, exactly if it
      was last added in the chain's own form. Otherwise it is listed under the form it was given in, with
      what the chain holds for that. */
  lemma ListedTrulyIff(l: Lists, calls: seq<Call>, a: Addr, i: nat, held: seq<Held>)
    requires Separate(l) && PlacesLast(l.owner, calls, a, i) && calls[i].Add?
    ensures a in AfterCalls(l, calls).registry
    ensures var listed := Response(AfterCalls(l, calls).registry, HeldMap(held), a);
            && listed.address == calls[i].validator.address && Shows(held, listed.address, listed.totalDelegated)
            && (listed.address == a && Shows(held, a, listed.totalDelegated) <==> InChainForm(calls[i]))
  {
    LastCallDecides(l, calls, a);
    assert PutBy(AfterCalls(l, calls), calls, a, i);
    hide AfterCalls, HeldMap, Shows;
    HeldMapShows(held, calls[i].validator.address);
  }

  /** The validator is registered, and listed with what the chain's answer shows that it holds. */
  ghost predicate Truthful(v: ValidatorResponse, l: Lists, held: seq<Held>) {
    v.address in l.registry && Shows(held, v.address, v.totalDelegated)
  }

  lemma SameTruth(listed: seq<ValidatorResponse>, answer: seq<ValidatorResponse>, l: Lists, held: seq<Held>)
    requires multiset(listed) == multiset(answer)
    requires forall i | 0 <= i < |listed| :: Truthful(listed[i], l, held)
    requires forall i, j | 0 <= i < j < |listed| :: listed[i].address != listed[j].address
    ensures forall i | 0 <= i < |answer| :: Truthful(answer[i], l, held)
    ensures forall i, j | 0 <= i < j < |answer| :: answer[i].address != answer[j].address
  {
    hide Truthful;
    forall i | 0 <= i < |answer| ensures answer[i] in listed {
      assert answer[i] in multiset(answer);
    }
    DistinctByMultiset(listed, answer);
    forall i, j | 0 <= i < j < |answer| ensures answer[i].address != answer[j].address {
      assert answer[i] in listed && answer[j] in listed && answer[i] != answer[j];
    }
  }

  lemma {:induction false} CountsOnce<T>(s: seq<T>, k: nat)
    requires k < |s| && forall i, j | 0 <= i < j < |s| :: s[i] != s[j]
    ensures multiset(s)[s[k]] == 1
  {
    assert s == s[..k] + [s[k]] + s[k + 1..];
    assert s[k] !in s[..k] && s[k] !in s[k + 1..];
  }

  lemma DistinctByMultiset<T>(s: seq<T>, t: seq<T>)
    requires multiset(s) == multiset(t)
    requires forall i, j | 0 <= i < j < |s| :: s[i] != s[j]
    ensures forall i, j | 0 <= i < j < |t| :: t[i] != t[j]
  {
    forall i, j | 0 <= i < j < |t| ensures t[i] != t[j] {
      if t[i] == t[j] {
        assert t == t[..i] + [t[i]] + t[i + 1..j] + [t[j]] + t[j + 1..];
        assert multiset(t)[t[i]] >= 2;
        assert t[i] in multiset(s);
        var k :| 0 <= k < |s| && s[k] == t[i];
        CountsOnce(s, k);
        assert false;
      }
    }
  }

  // ---------------------------------------------------------------- redelegation

  /** The positive parts, with the validators they go to. */
  function Moves(active: seq<ValidatorResponse>, parts: seq<nat>): seq<(Addr, nat)>
    requires |active| == |parts|
  {
    if parts == [] then []
    else
      var n := |parts| - 1;
      Moves(active[..n], parts[..n]) + if parts[n] == 0 then [] else [(active[n].address, parts[n])]
  }

  /** Redelegates what each excluded validator holds, in storage order, over the active ones; a failing
      allocation aborts. */
  function Redelegated(active: seq<ValidatorResponse>, held: map<Addr, nat>,
                       excluded: seq<Addr>): Result<seq<Redelegation>> {
    if excluded == [] then Ok([])
    else
      var done :- Redelegated(active, held, excluded[..|excluded| - 1]);
      var v := excluded[|excluded| - 1];
      if v !in held || held[v] == 0 then Ok(done)
      else
        var parts := Delegations(held[v], Totals(active));
        if parts.Err? then Err(Panic) else Ok(done + [Redelegation(v, Moves(active, parts.value))])
  }

  function MovedBy(moves: seq<(Addr, nat)>): nat {
    if moves == [] then 0 else MovedBy(moves[..|moves| - 1]) + moves[|moves| - 1].1
  }

  lemma {:induction false} MovesAddUp(active: seq<ValidatorResponse>, parts: seq<nat>)
    requires |active| == |parts|
    ensures MovedBy(Moves(active, parts)) == Sum(parts)
    decreases |parts|
  {
    if parts != [] {
      var n := |parts| - 1;
      MovesAddUp(active[..n], parts[..n]);
      var head := Moves(active[..n], parts[..n]);
      if parts[n] > 0 {
        assert (head + [(active[n].address, parts[n])])[..|head|] == head;
      } else {
        assert head + [] == head;
      }
    }
  }

  /** What the moves give one validator. */
  function MovedTo(moves: seq<(Addr, nat)>, v: Addr): nat {
    if moves == [] then 0
    else
      var last := moves[|moves| - 1];
      MovedTo(moves[..|moves| - 1], v) + if last.0 == v then last.1 else 0
  }

  lemma MovedToAppend(moves: seq<(Addr, nat)>, last: (Addr, nat), v: Addr)
    ensures MovedTo(moves + [last], v) == MovedTo(moves, v) + if last.0 == v then last.1 else 0
  {
    assert (moves + [last])[..|moves|] == moves;
  }

  /** Each active validator is moved its own part, and no other anything. */
  lemma {:induction false} MovesExact(active: seq<ValidatorResponse>, parts: seq<nat>)
    requires |active| == |parts| && EachOnce(active)
    ensures forall i | 0 <= i < |parts| :: MovedTo(Moves(active, parts), active[i].address) == parts[i]
    ensures forall v | Unlisted(active, v) :: MovedTo(Moves(active, parts), v) == 0
    decreases |parts|
  {
    if parts != [] {
      var n := |parts| - 1;
      var head := Moves(active[..n], parts[..n]);
      MovesExact(active[..n], parts[..n]);
      var all := Moves(active, parts);
      assert all == if parts[n] == 0 then head else head + [(active[n].address, parts[n])];
      assert Unlisted(active[..n], active[n].address);
      hide Moves, MovedTo;
      forall v ensures MovedTo(all, v) == MovedTo(head, v) + if active[n].address == v then parts[n] else 0 {
        MovedToAppend(head, (active[n].address, parts[n]), v);
      }
      forall i | 0 <= i < |parts| ensures MovedTo(all, active[i].address) == parts[i] {
        if i < n {
          assert active[..n][i].address == active[i].address;
        }
      }
      forall v | Unlisted(active, v) ensures MovedTo(all, v) == 0 {
        assert Unlisted(active[..n], v);
      }
    }
  }

  /** The moves give each active validator its own part of the amount. */
  ghost predicate GivesParts(active: seq<ValidatorResponse>, moves: seq<(Addr, nat)>, amount: nat) {
    && Delegations(amount, Totals(active)).Ok?
    && (forall i | 0 <= i < |active| ::
          MovedTo(moves, active[i].address) == Delegations(amount, Totals(active)).value[i])
    && forall v | Unlisted(active, v) :: MovedTo(moves, v) == 0
  }

  /** A positive amount that goes to an active validator. */
  ghost predicate ToActive(active: seq<ValidatorResponse>, move: (Addr, nat)) {
    move.1 > 0 && exists i :: 0 <= i < |active| && active[i].address == move.0
  }

  lemma {:induction false} MovesGoToActive(active: seq<ValidatorResponse>, parts: seq<nat>)
    requires |active| == |parts|
    ensures forall m | m in Moves(active, parts) :: ToActive(active, m)
    decreases |parts|
  {
    if parts != [] {
      var n := |parts| - 1;
      MovesGoToActive(active[..n], parts[..n]);
      var head := Moves(active[..n], parts[..n]);
      assert Moves(active, parts) == head + if parts[n] == 0 then [] else [(active[n].address, parts[n])];
      hide Moves;
      forall m | m in Moves(active, parts) ensures ToActive(active, m) {
        if m in head {
          assert ToActive(active[..n], m);
          var i :| 0 <= i < n && active[..n][i].address == m.0;
          assert active[i].address == m.0;
        } else {
          assert active[n].address == m.0;
        }
      }
    }
  }

  /** An excluded validator that still holds something. */
  ghost predicate ToMove(held: map<Addr, nat>, v: Addr) { v in held && held[v] > 0 }

  /** A redelegation that moves exactly what its source holds, to active validators only, and to each its own
      part of it. */
  ghost predicate MovesAll(active: seq<ValidatorResponse>, held: map<Addr, nat>, r: Redelegation) {
    && ToMove(held, r.source)
    && MovedBy(r.moves) == held[r.source]
    && (EachOnce(active) ==> GivesParts(active, r.moves, held[r.source]))
    && forall m | m in r.moves :: ToActive(active, m)
  }

  /** One redelegation for each excluded validator that holds something, and for no other, and each
      moves exactly what its source holds. */
  ghost predicate Conserves(active: seq<ValidatorResponse>, held: map<Addr, nat>, excluded: seq<Addr>,
                            r: seq<Redelegation>) {
    && (forall m | m in r :: MovesAll(active, held, m) && m.source in excluded)
    && (forall v | v in excluded && ToMove(held, v) :: exists m :: m in r && m.source == v)
    && (forall i, j | 0 <= i < j < |r| :: r[i].source != r[j].source)
  }

  /** There is an active validator, and the sum stays in 128 bits. */
  ghost predicate CanMove(active: seq<ValidatorResponse>, held: map<Addr, nat>, v: Addr)
    requires v in held
  {
    active != [] && Sum(Totals(active)) + held[v] <= U128_MAX
  }

  lemma OneMoreSkipped(active: seq<ValidatorResponse>, held: map<Addr, nat>, excluded: seq<Addr>, v: Addr,
                       r: seq<Redelegation>)
    requires Conserves(active, held, excluded, r) && !ToMove(held, v)
    ensures Conserves(active, held, excluded + [v], r)
  {
    hide MovesAll, ToMove;
  }

  lemma OneMoreMoved(active: seq<ValidatorResponse>, held: map<Addr, nat>, excluded: seq<Addr>, v: Addr,
                     r: seq<Redelegation>, last: Redelegation)
    requires Conserves(active, held, excluded, r) && v !in excluded
    requires MovesAll(active, held, last) && last.source == v
    ensures Conserves(active, held, excluded + [v], r + [last])
  {
    hide MovesAll, ToMove;
    var all := r + [last];
    forall u | u in excluded + [v] && ToMove(held, u) ensures exists m :: m in all && m.source == u {
      if u == v {
        assert last in all;
      } else {
        var m :| m in r && m.source == u;
        assert m in all;
      }
    }
  }

  lemma OneMoves(active: seq<ValidatorResponse>, held: map<Addr, nat>, v: Addr)
    requires ToMove(held, v)
    ensures Delegations(held[v], Totals(active)).Ok? <==> CanMove(active, held, v)
    ensures Delegations(held[v], Totals(active)).Ok? ==>
              MovesAll(active, held, Redelegation(v, Moves(active, Delegations(held[v], Totals(active)).value)))
  {
    hide Delegations, GivesExactly, ToActive, Moves, GivesParts, MovedBy, Sum;
    DelegationsTotalAndExact(held[v], Totals(active));
    if Delegations(held[v], Totals(active)).Ok? {
      var parts := Delegations(held[v], Totals(active)).value;
      if EachOnce(active) {
        PartsAreGiven(active, held[v]);
      }
      DelegationsAddUp(held[v], Totals(active));
      MovesAddUp(active, parts);
      MovesGoToActive(active, parts);
    }
  }

  lemma PartsAreGiven(active: seq<ValidatorResponse>, amount: nat)
    requires EachOnce(active) && Delegations(amount, Totals(active)).Ok?
    ensures GivesParts(active, Moves(active, Delegations(amount, Totals(active)).value), amount)
  {
    hide Delegations, Moves, MovedTo;
    MovesExact(active, Delegations(amount, Totals(active)).value);
  }

  /** Redelegating aborts exactly if an excluded validator holds something and there is no active one, or
      the sum leaves 128 bits; otherwise it conserves what each excluded validator holds. */
  lemma {:induction false} RedelegationConserves(active: seq<ValidatorResponse>, held: map<Addr, nat>,
                                                 excluded: seq<Addr>)
    requires forall i, j | 0 <= i < j < |excluded| :: excluded[i] != excluded[j]
    ensures var r := Redelegated(active, held, excluded);
            && (r.Ok? <==> forall v | v in excluded && ToMove(held, v) :: CanMove(active, held, v))
            && (r.Ok? ==> Conserves(active, held, excluded, r.value))
    decreases |excluded|
  {
    hide Delegations, Moves, Conserves, MovesAll, CanMove;
    if excluded == [] {
      NothingConserved(active, held);
    } else {
      var n := |excluded| - 1;
      var v := excluded[n];
      var head := excluded[..n];
      RedelegationConserves(active, held, head);
      assert excluded == head + [v];
      var before := Redelegated(active, held, head);
      if ToMove(held, v) {
        OneMoves(active, held, v);
        if before.Ok? && Delegations(held[v], Totals(active)).Ok? {
          OneMoreMoved(active, held, head, v, before.value,
                       Redelegation(v, Moves(active, Delegations(held[v], Totals(active)).value)));
        }
      } else if before.Ok? {
        OneMoreSkipped(active, held, head, v, before.value);
      }
    }
  }

  lemma NothingConserved(active: seq<ValidatorResponse>, held: map<Addr, nat>)
    ensures Conserves(active, held, [], [])
  {
  }

  // ---------------------------------------------------------------- the contract

  class Registry {
    var owner: Addr
    var registry: map<Addr, Validator>
    var excluded: map<Addr, bool>

    function Stored(): Lists
      reads this
    {
      Lists(owner, registry, excluded)
    }

    constructor (owner: Addr, found: seq<Option<Addr>>)
      ensures Stored() == Instantiated(owner, found)
    {
      this.owner := owner;
      registry := map[];
      excluded := map[];
      new;
      for i := 0 to |found|
        invariant Stored() == Instantiated(owner, found[..i])
      {
        assert found[..i + 1][..i] == found[..i];
        if found[i].Some? {
          registry := registry[found[i].value := Validator(found[i].value)];
        }
      }
      assert found[..|found|] == found;
    }

    method AddValidator(sender: Addr, validator: Validator, found: Option<Addr>) returns (r: Result<()>)
      modifies this
      ensures var spec := Added(old(Stored()), sender, validator, found);
              if spec.Ok? then r.Ok? && Stored() == spec.value else r == Err(spec.error) && Stored() == old(Stored())
    {
      if sender != owner {
        return Err(Unauthorized);
      }
      if found.Some? {
        registry := registry[found.value := validator];
        excluded := excluded - {found.value};
      }
      r := Ok(());
    }

    method RemoveValidator(sender: Addr, address: Addr) returns (r: Result<()>)
      modifies this
      ensures var spec := Removed(old(Stored()), sender, address);
              if spec.Ok? then r.Ok? && Stored() == spec.value else r == Err(spec.error) && Stored() == old(Stored())
    {
      if sender != owner {
        return Err(Unauthorized);
      }
      registry := registry - {address};
      excluded := excluded[address := true];
      r := Ok(());
    }

    method CollectDelegations(held: seq<Held>) returns (m: map<Addr, nat>)
      ensures m == HeldMap(held)
    {
      m := map[];
      for i := 0 to |held|
        invariant m == HeldMap(held[..i])
      {
        assert held[..i + 1][..i] == held[..i];
        m := m[held[i].validator := held[i].amount];
      }
      assert held[..|held|] == held;
    }

    method QueryValidators(held: seq<Held>, order: seq<Addr>) returns (r: seq<ValidatorResponse>)
      requires Walks(order, registry.Keys)
      ensures r == ValidatorsDelegation(Stored(), held, order)
    {
      var delegations := CollectDelegations(held);
      r := SortByTotal(Responses(registry, delegations, order));
    }

    method ProcessRedelegations(held: seq<Held>, order: seq<Addr>, excludedOrder: seq<Addr>)
      returns (r: Result<seq<Redelegation>>)
      requires Walks(order, registry.Keys) && Walks(excludedOrder, excluded.Keys)
      ensures r == Redelegated(ValidatorsDelegation(Stored(), held, order), HeldMap(held), excludedOrder)
    {
      if excluded == map[] {
        WalksNothing(excludedOrder, excluded.Keys);
        return Ok([]);
      }
      var delegations := CollectDelegations(held);
      var active := QueryValidators(held, order);
      var messages := [];
      for i := 0 to |excludedOrder|
        invariant Redelegated(active, delegations, excludedOrder[..i]) == Ok(messages)
      {
        assert excludedOrder[..i + 1][..i] == excludedOrder[..i];
        var v := excludedOrder[i];
        if v in delegations && delegations[v] != 0 {
          var parts := CalculateDelegations(delegations[v], active);
          if parts.Err? {
            FailedPrefix(active, delegations, excludedOrder, i + 1);
            return Err(Panic);
          }
          messages := messages + [Redelegation(v, Moves(active, parts.value))];
        }
      }
      assert excludedOrder[..|excludedOrder|] == excludedOrder;
      r := Ok(messages);
    }
  }

  /** Once an allocation fails, the whole transaction fails. */
  lemma {:induction false} FailedPrefix(active: seq<ValidatorResponse>, held: map<Addr, nat>, excluded: seq<Addr>,
                                        i: nat)
    requires i <= |excluded|
    requires Redelegated(active, held, excluded[..i]) == Err(Panic)
    ensures Redelegated(active, held, excluded) == Err(Panic)
    decreases |excluded|
  {
    if i == |excluded| {
      assert excluded[..i] == excluded;
    } else {
      assert excluded[..|excluded| - 1][..i] == excluded[..i];
      FailedPrefix(active, held, excluded[..|excluded| - 1], i);
    }
  }

  /** The form in which some registered validator is stored. */
  ghost predicate StoredForm(l: Lists, address: Addr) {
    exists k :: k in l.registry && l.registry[k].address == address
  }

  lemma AnswersWithStored(l: Lists, held: seq<Held>, order: seq<Addr>)
    requires Walks(order, l.registry.Keys)
    ensures var answer := ValidatorsDelegation(l, held, order);
            |answer| == |order| && forall i | 0 <= i < |answer| :: StoredForm(l, answer[i].address)
  {
    var listed := Responses(l.registry, HeldMap(held), order);
    var answer := ValidatorsDelegation(l, held, order);
    SortKeeps(listed);
    hide SortByTotal, HeldMap;
    forall i | 0 <= i < |answer| ensures StoredForm(l, answer[i].address) {
      assert answer[i] in multiset(answer);
      assert answer[i] in listed;
      var k :| 0 <= k < |listed| && listed[k] == answer[i];
      assert order[k] in l.registry;
    }
  }

  /** The whole of it: over any calls that add and remove validators, redelegation aborts exactly if no
      validator is registered (or the sum leaves 128 bits) while a removed one holds something, and
      moves, in one message for each, exactly what the removed validators hold to the registered ones, in the
      form they are stored in; where all were given in the chain's own form, to registered and not excluded
      addresses, and to each its own part. */
  lemma RedelegationOverAnyCalls(l: Lists, calls: seq<Call>, held: seq<Held>, order: seq<Addr>,
                                 excludedOrder: seq<Addr>)
    requires Separate(l)
    requires Walks(order, AfterCalls(l, calls).registry.Keys)
             && Walks(excludedOrder, AfterCalls(l, calls).excluded.Keys)
    ensures var now := AfterCalls(l, calls);
            var active := ValidatorsDelegation(now, held, order);
            var r := Redelegated(active, HeldMap(held), excludedOrder);
            && (r.Ok? <==> forall v, n: nat | v in now.excluded && n > 0 && Shows(held, v, n) ::
                             now.registry != map[] && Sum(Totals(active)) + n <= U128_MAX)
            && (r.Ok? ==>
                  && (forall m | m in r.value ::
                        && m.source in now.excluded
                        && MovedBy(m.moves) > 0 && Shows(held, m.source, MovedBy(m.moves))
                        && (forall d | d in m.moves :: StoredForm(now, d.0))
                        && (Normal(l) && (forall c | c in calls :: InChainForm(c)) ==>
                              && GivesParts(active, m.moves, MovedBy(m.moves))
                              && forall d | d in m.moves :: d.0 in now.registry && d.0 !in now.excluded))
                  && (forall v, n: nat | v in now.excluded && n > 0 && Shows(held, v, n) ::
                        exists m :: m in r.value && m.source == v)
                  && (forall i, j | 0 <= i < j < |r.value| :: r.value[i].source != r.value[j].source))
  {
    var now := AfterCalls(l, calls);
    var active := ValidatorsDelegation(now, held, order);
    CallsKeepSeparate(l, calls);
    AnswersWithStored(now, held, order);
    RedelegationConserves(active, HeldMap(held), excludedOrder);
    WalksNothing(order, now.registry.Keys);
    hide AfterCalls, ValidatorsDelegation, Redelegated, Sum, InChainForm, Shows, GivesParts, Conserves, Totals;
    ShowsHeld(held);
    hide HeldMap;
    CanMoveShown(active, now, held, excludedOrder);
    var r := Redelegated(active, HeldMap(held), excludedOrder);
    if r.Ok? {
      ConservesShown(active, now, held, excludedOrder, r.value);
      if Normal(l) && forall c | c in calls :: InChainForm(c) {
        AnswersTruly(now, held, order);
        forall m | m in r.value
          ensures GivesParts(active, m.moves, MovedBy(m.moves))
          ensures forall d | d in m.moves :: d.0 in now.registry && d.0 !in now.excluded
        {
          MovedInForm(active, now, held, m);
        }
      }
    }
  }

  lemma ShowsHeld(held: seq<Held>)
    ensures forall a, n: nat :: Shows(held, a, n) <==> n == W.At(HeldMap(held), a)
  {
    forall a, n: nat ensures Shows(held, a, n) <==> n == W.At(HeldMap(held), a) {
      HeldMapShows(held, a);
    }
  }

  lemma CanMoveShown(active: seq<ValidatorResponse>, l: Lists, held: seq<Held>, excluded: seq<Addr>)
    requires Walks(excluded, l.excluded.Keys) && (active == [] <==> l.registry == map[])
    requires forall a, n: nat :: Shows(held, a, n) <==> n == W.At(HeldMap(held), a)
    ensures (forall v | v in excluded && ToMove(HeldMap(held), v) :: CanMove(active, HeldMap(held), v))
       <==> forall v, n: nat | v in l.excluded && n > 0 && Shows(held, v, n) ::
              l.registry != map[] && Sum(Totals(active)) + n <= U128_MAX
  {
    hide HeldMap, Shows, Sum, Totals;
    var m := HeldMap(held);
    if forall v | v in excluded && ToMove(m, v) :: CanMove(active, m, v) {
      forall v, n: nat | v in l.excluded && n > 0 && Shows(held, v, n)
        ensures l.registry != map[] && Sum(Totals(active)) + n <= U128_MAX
      {
        assert v in excluded && ToMove(m, v);
        assert CanMove(active, m, v);
      }
    }
    if forall v, n: nat | v in l.excluded && n > 0 && Shows(held, v, n) ::
         l.registry != map[] && Sum(Totals(active)) + n <= U128_MAX
    {
      forall v | v in excluded && ToMove(m, v) ensures CanMove(active, m, v) {
        assert Shows(held, v, m[v]);
      }
    }
  }

  lemma ConservesShown(active: seq<ValidatorResponse>, l: Lists, held: seq<Held>, excluded: seq<Addr>,
                       r: seq<Redelegation>)
    requires Walks(excluded, l.excluded.Keys) && Conserves(active, HeldMap(held), excluded, r)
    requires forall i | 0 <= i < |active| :: StoredForm(l, active[i].address)
    requires forall a, n: nat :: Shows(held, a, n) <==> n == W.At(HeldMap(held), a)
    ensures forall m | m in r ::
              && m.source in l.excluded && MovesAll(active, HeldMap(held), m)
              && MovedBy(m.moves) > 0 && Shows(held, m.source, MovedBy(m.moves))
              && forall d | d in m.moves :: StoredForm(l, d.0)
    ensures forall v, n: nat | v in l.excluded && n > 0 && Shows(held, v, n) :: exists m :: m in r && m.source == v
    ensures forall i, j | 0 <= i < j < |r| :: r[i].source != r[j].source
  {
    hide HeldMap, Shows, GivesParts, Delegations, Totals, StoredForm, MovedBy;
    forall m | m in r
      ensures m.source in l.excluded && MovesAll(active, HeldMap(held), m)
      ensures MovedBy(m.moves) > 0 && Shows(held, m.source, MovedBy(m.moves))
      ensures forall d | d in m.moves :: StoredForm(l, d.0)
    {
      assert MovesAll(active, HeldMap(held), m);
      forall d | d in m.moves ensures StoredForm(l, d.0) {
        assert ToActive(active, d);
        var i :| 0 <= i < |active| && active[i].address == d.0;
      }
    }
    forall v, n: nat | v in l.excluded && n > 0 && Shows(held, v, n) ensures exists m :: m in r && m.source == v {
      assert v in excluded && ToMove(HeldMap(held), v);
    }
  }

  lemma MovedInForm(active: seq<ValidatorResponse>, l: Lists, held: seq<Held>, m: Redelegation)
    requires Separate(l) && Normal(l) && EachOnce(active) && MovesAll(active, HeldMap(held), m)
    requires forall d | d in m.moves :: StoredForm(l, d.0)
    ensures GivesParts(active, m.moves, MovedBy(m.moves))
    ensures forall d | d in m.moves :: d.0 in l.registry && d.0 !in l.excluded
  {
    hide HeldMap, GivesParts, Delegations, Totals, MovedBy;
    forall d | d in m.moves ensures d.0 in l.registry && d.0 !in l.excluded {
      assert StoredForm(l, d.0);
    }
  }
}
