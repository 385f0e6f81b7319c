/** Why the epoch length matters: instantiation refuses one shorter than the chain's staking epoch, a later
    change of parameters does not (contracts/lst_staking_hub/src/config.rs). With a length that does not keep
    batches apart, a run with blocks no further apart than they may be undelegates two batches in one staking
    epoch, each within what the chain then shows, and the chain cannot carry out both. */
module MeetingBatches {
  import opened Wrappers
  import opened Sums
  import opened FixedPoint
  import opened Delegation
  import opened PendingEpoch
  import opened HubTypes
  import opened Release
  import opened Handlers
  import opened World
  import opened Batches
  import opened Runs
  import opened Reachable
  import opened CalmRuns
  import opened Liveness
  import opened LevelWorlds

  function Params(epochLength: nat): Parameters {
    Parameters(epochLength, "ubbn", MAX_UNSTAKING_PERIOD, false)
  }

  /** A length that instantiation refuses can be set afterwards. */
  lemma ChangeIsNotRechecked(owner: Addr, blocks: nat, start: nat, env: Env, epochLength: nat)
    requires 0 < blocks * AVERAGE_BLOCK_TIME <= MAX_EPOCH_LENGTH
    requires epochLength < blocks * AVERAGE_BLOCK_TIME
    ensures Instantiate(owner, Params(blocks * AVERAGE_BLOCK_TIME), blocks, start, env).Ok?
    ensures Instantiate(owner, Params(epochLength), blocks, start, env) == Err(InvalidEpochLength)
    ensures UpdatedParams(Params(blocks * AVERAGE_BLOCK_TIME), None, Some(epochLength), None) == Ok(Params(epochLength))
  {
  }

  // ---------------------------------------------------------------- the states of the run

  const CONFIG := Config("owner", Some("token"), Some("registry"), Some("rewards"))

  /** The hub with the epoch length it may be instantiated with, and the contracts around it named. */
  ghost function NamedHub(blocks: nat): World {
    World(Ledger(CONFIG, Params(blocks * AVERAGE_BLOCK_TIME), State(ONE, 0, 0, 0, 0, 0), CurrentBatch(1, 0), map[],
                 map[], PendingDelegation(blocks, 0, 0, 0)),
          Chain(0, blocks, 0, 0, 0, 0, map[], [], 0),
          Books(0, 0, 0, 0, 0, None))
  }

  ghost function NewHub(blocks: nat): World {
    var w := NamedHub(blocks);
    w.(hub := w.hub.(config := Config("owner", None, None, None)))
  }

  ghost function Shortened(e: nat, blocks: nat): World {
    var w := NamedHub(blocks);
    w.(hub := w.hub.(params := Params(e)))
  }

  /** 900 coins are queued for the one validator, then 100 for the other. */
  ghost function StakedOnce(e: nat, blocks: nat): World {
    var w := Shortened(e, blocks);
    World(w.hub.(state := w.hub.state.(totalStakedAmount := 900), pending := PendingDelegation(blocks, 0, 900, 0)),
          w.chain.(bank := 900, supply := 900, queue := [Delegate("first", 900)]),
          w.books.(deposited := 900))
  }

  ghost function StakedTwice(e: nat, blocks: nat): World {
    var w := Shortened(e, blocks);
    World(w.hub.(state := w.hub.state.(totalStakedAmount := 1000), pending := PendingDelegation(blocks, 0, 1000, 0)),
          w.chain.(bank := 1000, supply := 1000, queue := [Delegate("first", 900), Delegate("second", 100)]),
          w.books.(deposited := 1000))
  }

  const FIRST_AND_SECOND: map<Addr, nat> := map["first" := 900, "second" := 100]

  /** The first block of the next staking epoch: both delegations are carried out. */
  ghost function Delegated(e: nat, blocks: nat): World {
    var w := StakedTwice(e, blocks);
    w.(chain := w.chain.(height := blocks, nanos := blocks * MAX_BLOCK_NANOS, bank := 0, delegated := FIRST_AND_SECOND,
                         queue := []))
  }

  ghost function Record(id: nat, time: nat, tokens: nat): UnstakeHistory {
    UnstakeHistory(id, time, tokens, ONE, ONE, false)
  }

  /** At its first block, 400 tokens leave in a batch. */
  ghost function LeftOnce(e: nat, blocks: nat): World {
    var w := Delegated(e, blocks);
    var time := blocks * AVERAGE_BLOCK_TIME;
    World(w.hub.(state := w.hub.state.(totalStakedAmount := 600, lastUnbondedTime := time),
                 currentBatch := CurrentBatch(2, 0),
                 waitList := map[("ada", 1) := 400],
                 history := map[1 := Record(1, time, 400)],
                 pending := PendingDelegation(blocks, blocks, 0, 400)),
          w.chain.(supply := 600, queue := [Undelegate("first", 400)]),
          w.books.(lastBatchHeight := Some(blocks)))
  }

  /** At its last block, the other 600 do. */
  ghost function LeftTwice(e: nat, blocks: nat): World
    requires blocks > 0
  {
    var w := Later(LeftOnce(e, blocks), blocks - 1, MAX_BLOCK_NANOS);
    var time := (2 * blocks - 1) * AVERAGE_BLOCK_TIME;
    World(w.hub.(state := w.hub.state.(totalStakedAmount := 0, lastUnbondedTime := time),
                 currentBatch := CurrentBatch(3, 0),
                 waitList := map[("ada", 1) := 400, ("ada", 2) := 600],
                 history := map[1 := Record(1, blocks * AVERAGE_BLOCK_TIME, 400), 2 := Record(2, time, 600)],
                 pending := PendingDelegation(blocks, blocks, 0, 1000)),
          w.chain.(supply := 0, queue := [Undelegate("first", 400), Undelegate("first", 600)]),
          w.books.(lastBatchHeight := Some(2 * blocks - 1)))
  }

  // ---------------------------------------------------------------- starting and staking

  lemma HubIsNew(blocks: nat) returns (steps: seq<Step>)
    requires 0 < blocks * AVERAGE_BLOCK_TIME <= MAX_EPOCH_LENGTH
    ensures Start(NewHub(blocks)) && Run(NewHub(blocks), steps, NamedHub(blocks))
    ensures forall s | s in steps :: s.Tx?
  {
    var w := NewHub(blocks);
    assert SumValues(w.chain.delegated) == 0;
    assert Instantiate("owner", w.hub.params, blocks, 0, EnvOf(w.chain)) == Ok(w.hub);
    hide Next, Possible, Instantiate;
    NamingTakesPlace(w, "token", "registry", "rewards");
    SteppedOnce(w, Naming(w, "token", "registry", "rewards"), NamedHub(blocks));
    steps := [Naming(w, "token", "registry", "rewards")];
  }

  /** Nobody is asked about a change of parameters but its sender. */
  const NOTHING := Queries([], 0, 0, [], 0, 0)

  lemma Shortening(e: nat, blocks: nat)
    requires 0 < blocks * AVERAGE_BLOCK_TIME <= MAX_EPOCH_LENGTH && !KeepsApart(e, blocks)
    ensures var step := Tx(NOTHING, Info("owner", []), UpdateParams(None, Some(e), None));
            Possible(NamedHub(blocks), step) && Next(NamedHub(blocks), step) == Shortened(e, blocks)
    ensures Level(Shortened(e, blocks))
  {
    var w := NamedHub(blocks);
    var info, msg := Info("owner", []), UpdateParams(None, Some(e), None);
    assert SumValues(w.chain.delegated) == 0 && SumOfDenom([], "ubbn") == 0;
    ChangeIsNotRechecked("owner", blocks, 0, EnvOf(w.chain), e);
    hide UpdatedParams;
    var o := Outcome(w.hub.(params := Params(e)), []);
    assert Execute(w.hub, EnvOf(w.chain), NOTHING, info, msg) == Ok(o);
    UnchangedBooks(w, NOTHING, info, msg, o.ledger);
    StartTracks(w.chain);
    TracksIgnoresCoins(w.hub.pending, w.chain, Shortened(e, blocks).chain);
  }

  ghost function StakeStep(supply: nat, balance: nat, v: Addr, amount: nat): Step {
    Tx(Queries([], supply, balance, [ValidatorResponse(0, v)], 0, 0), Info("ada", [Coin("ubbn", amount)]), Stake)
  }

  /** A stake on a level hub that has nothing delegated yet. */
  lemma StakeOnNothing(w: World, v: Addr, amount: nat) returns (after: World)
    requires Level(w) && w.hub.params.stakingCoinDenom == "ubbn" && w.chain.delegated == map[]
    requires 0 < amount <= U128_MAX
    ensures var step := StakeStep(w.chain.supply, w.chain.bank + amount, v, amount);
            Possible(w, step) && Next(w, step) == after
    ensures w.chain.epochLength > 0 && w.chain.epochOrigin <= w.chain.height
    ensures after == World(w.hub.(state := w.hub.state.(totalStakedAmount := w.hub.state.totalStakedAmount + amount),
                                  pending := after.hub.pending),
                           w.chain.(bank := w.chain.bank + amount, supply := w.chain.supply + amount,
                                    queue := w.chain.queue + [Delegate(v, amount)]),
                           w.books.(deposited := w.books.deposited + amount))
    ensures UpdatePending(w.hub.pending, w.chain.height, amount, 0) == Ok(after.hub.pending)
    ensures Level(after)
  {
    hide UpdatePending, Delegations, DelegateMessages, Payment, Transact, Level;
    OneCoin(amount);
    SoleDelegation(v, 0, amount);
    LevelHasEpochs(w);
    var step := StakeStep(w.chain.supply, w.chain.bank + amount, v, amount);
    assert SumValues(w.chain.delegated) == 0 && SumOfDenom([], "ubbn") == 0;
    var payment;
    after, payment := LevelStake(w, step.q, step.info);
  }

  lemma Staking(e: nat, blocks: nat)
    requires blocks > 0 && Level(Shortened(e, blocks))
    ensures var first := StakeStep(0, 900, "first", 900);
            && Possible(Shortened(e, blocks), first) && Next(Shortened(e, blocks), first) == StakedOnce(e, blocks)
    ensures var second := StakeStep(900, 1000, "second", 100);
            && Possible(StakedOnce(e, blocks), second) && Next(StakedOnce(e, blocks), second) == StakedTwice(e, blocks)
    ensures Level(StakedTwice(e, blocks))
  {
    hide Level, Possible, Next;
    var once := StakeOnNothing(Shortened(e, blocks), "first", 900);
    assert once == StakedOnce(e, blocks);
    var twice := StakeOnNothing(StakedOnce(e, blocks), "second", 100);
    assert twice == StakedTwice(e, blocks);
  }

  // ---------------------------------------------------------------- the end of an epoch

  lemma SumOfTwo(a: Addr, x: nat, b: Addr, y: nat)
    requires a != b
    ensures SumValues(map[a := x, b := y]) == x + y
  {
    SumUpdate(map[], a, x);
    SumUpdate(map[a := x], b, y);
    assert map[a := x, b := y] == map[a := x][b := y];
    assert map[a := x] == map[][a := x];
  }

  lemma DelegationsCarriedOut(c: Chain)
    requires c.bank == 1000 && c.delegated == map[] && c.queue == [Delegate("first", 900), Delegate("second", 100)]
    ensures Drain(c, c.queue) == c.(bank := 0, delegated := FIRST_AND_SECOND)
    ensures SumValues(FIRST_AND_SECOND) == 1000
  {
    DrainTwo(c, c.queue[0], c.queue[1]);
    assert "first" != "second";
    assert map[]["first" := 900]["second" := 100] == FIRST_AND_SECOND;
    SumOfTwo("first", 900, "second", 100);
  }

  lemma Delegating(e: nat, blocks: nat) returns (steps: seq<Step>)
    requires blocks > 0 && Level(StakedTwice(e, blocks))
    ensures Run(StakedTwice(e, blocks), steps, Delegated(e, blocks))
    ensures forall s | s in steps :: s == NextBlock(MAX_BLOCK_NANOS)
    ensures Level(Delegated(e, blocks))
  {
    hide Level, Next, Run, Possible, Epoch;
    var w := StakedTwice(e, blocks);
    EpochOf(blocks, 0, 0);
    EpochOf(blocks, 0, blocks - 1);
    EpochOf(blocks, 1, blocks);
    var head := BlocksRun(w, blocks - 1, MAX_BLOCK_NANOS);
    var mid := Later(w, blocks - 1, MAX_BLOCK_NANOS);
    EpochEnds(e, blocks);
    AnyBlockIsPossible(mid, MAX_BLOCK_NANOS);
    RunStep(w, head, mid, NextBlock(MAX_BLOCK_NANOS));
    steps := head + [NextBlock(MAX_BLOCK_NANOS)];
    DelegatedIsLevel(e, blocks);
  }

  lemma EpochEnds(e: nat, blocks: nat)
    requires blocks > 0
    ensures Next(Later(StakedTwice(e, blocks), blocks - 1, MAX_BLOCK_NANOS), NextBlock(MAX_BLOCK_NANOS))
         == Delegated(e, blocks)
  {
    hide Drain, SumValues, Epoch;
    var mid := Later(StakedTwice(e, blocks), blocks - 1, MAX_BLOCK_NANOS);
    EpochOf(blocks, 0, blocks - 1);
    EpochOf(blocks, 1, blocks);
    DelegationsCarriedOut(mid.chain);
    assert blocks * MAX_BLOCK_NANOS == (blocks - 1) * MAX_BLOCK_NANOS + MAX_BLOCK_NANOS;
  }

  lemma DelegatedIsLevel(e: nat, blocks: nat)
    requires blocks > 0
    ensures Level(Delegated(e, blocks))
  {
    var w := Delegated(e, blocks);
    SumOfTwo("first", 900, "second", 100);
    TracksNothing(w.hub.pending, w.chain, 0);
    hide Tracks;
  }

  // ---------------------------------------------------------------- the two batches

  /** What the hub sees of the chain in the second epoch. */
  ghost function Sight(supply: nat): Queries {
    Queries([Coin("ubbn", 900), Coin("ubbn", 100)], supply, 0,
            [ValidatorResponse(100, "second"), ValidatorResponse(900, "first")], 1000, 1000)
  }

  lemma SightIsTrue(w: World)
    requires w.hub.params.stakingCoinDenom == "ubbn" && w.chain.delegated == FIRST_AND_SECOND && w.chain.bank == 0
    ensures Sees(w.chain, "ubbn", Sight(w.chain.supply), w.chain.bank)
    ensures Totals(Sight(w.chain.supply).validators) == [100, 900]
  {
    var q := Sight(w.chain.supply);
    SumOfTwo("first", 900, "second", 100);
    assert q.delegations[..1] == [Coin("ubbn", 900)];
    assert [Coin("ubbn", 900)][..0] == [];
    assert SumOfDenom(q.delegations, "ubbn") == 1000;
  }

  /** An even remainder leaves the smaller validator alone. */
  lemma TakenFromFirst(amount: nat, left: nat)
    requires 0 < amount && amount + 2 * left == 1000 && 100 <= left
    ensures Undelegations(amount, [100, 900]) == Ok([0, amount])
    ensures Sum([100, 900]) == 1000
  {
    SumOfPair([100, 900]);
    UndelegationsTotalAndExact(amount, [100, 900]);
    var parts := Undelegations(amount, [100, 900]).value;
    hide Undelegations, Sum;
    SumOfPair(parts);
    EvenTargets(left);
    assert parts == [0, amount];
  }

  lemma SumOfPair(s: seq<nat>)
    requires |s| == 2
    ensures Sum(s) == s[0] + s[1]
  {
    SumStep(s, 0);
    SumStep(s, 1);
    assert s[..2] == s && Sum(s[..0]) == 0;
  }

  lemma EvenTargets(left: nat)
    ensures Targets(2 * left, 2) == [left, left]
  {
    TargetsSplitEvenly(2 * left, 2);
    SumOfPair(Targets(2 * left, 2));
    hide Targets, Sum;
  }

  lemma OneMessage(amount: nat)
    requires amount > 0
    ensures UndelegateMessages(Sight(0).validators, [0, amount]) == [Undelegate("first", amount)]
  {
    var validators := Sight(0).validators;
    assert [0, amount][..1] == [0] && validators[..1] == [validators[0]];
    assert [0][..0] == [] && validators[..1][..0] == [];
    assert UndelegateMessages([validators[0]], [0]) == [];
  }

  /** The world after a batch of `amount` tokens, all requested at once, left at the first validator. */
  ghost function BatchGone(w: World, amount: nat, pending: PendingDelegation): World
    requires amount <= w.hub.state.totalStakedAmount && amount <= w.chain.supply
  {
    var id := w.hub.currentBatch.id;
    World(w.hub.(state := w.hub.state.(totalStakedAmount := w.hub.state.totalStakedAmount - amount,
                                       lastUnbondedTime := EnvOf(w.chain).time),
                 currentBatch := CurrentBatch(id + 1, 0),
                 waitList := w.hub.waitList[("ada", id) := amount],
                 history := w.hub.history[id := Record(id, EnvOf(w.chain).time, amount)],
                 pending := pending),
          w.chain.(supply := w.chain.supply - amount, queue := w.chain.queue + [Undelegate("first", amount)]),
          w.books.(lastBatchHeight := Some(w.chain.height)))
  }

  ghost function UnstakeStep(supply: nat, amount: nat): Step { Tx(Sight(supply), Info("ada", []), Unstake(amount)) }

  lemma BatchOf(w: World, amount: nat, left: nat) returns (after: World)
    requires Level(w) && w.hub.params.stakingCoinDenom == "ubbn" && w.chain.delegated == FIRST_AND_SECOND
    requires w.chain.bank == 0 && QueuedStake(w.chain.queue) == 0
    requires w.hub.currentBatch.requestedLstTokenAmount == 0 && ("ada", w.hub.currentBatch.id) !in w.hub.waitList
    requires 0 < amount <= w.chain.supply && amount + 2 * left == 1000 && 100 <= left
    requires w.hub.state.totalStakedAmount >= amount
    requires Due(w)
    ensures w.chain.epochLength > 0 && w.chain.epochOrigin <= w.chain.height
    ensures Possible(w, UnstakeStep(w.chain.supply, amount)) && Next(w, UnstakeStep(w.chain.supply, amount)) == after
    ensures after == BatchGone(w, amount, after.hub.pending)
    ensures UpdatePending(w.hub.pending, w.chain.height, 0, amount) == Ok(after.hub.pending)
    ensures Level(after)
  {
    hide UpdatePending, Undelegations, UndelegateMessages, Transact, Level, Sees, QueuedStake, Totals, Sum;
    LevelHasEpochs(w);
    var q := Sight(w.chain.supply);
    SightIsTrue(w);
    TakenFromFirst(amount, left);
    OneMessage(amount);
    WorthOf(q, amount);
    var pending;
    after, pending := LevelUnstake(w, q, "ada", amount);
  }

  lemma WorthOf(q: Queries, amount: nat)
    requires q.validators != [] && Totals(q.validators) == [100, 900] && Sum([100, 900]) == 1000 && 0 < amount <= 1000
    ensures CanUndelegate(q, amount, ONE)
  {
    OneForOne(amount);
  }

  lemma FirstBatch(e: nat, blocks: nat)
    requires blocks > 0 && !KeepsApart(e, blocks) && Level(Delegated(e, blocks))
    ensures Possible(Delegated(e, blocks), UnstakeStep(1000, 400))
    ensures Next(Delegated(e, blocks), UnstakeStep(1000, 400)) == LeftOnce(e, blocks)
    ensures Level(LeftOnce(e, blocks))
  {
    hide Level, Possible, Next, UpdatePending;
    var w := Delegated(e, blocks);
    Seconds(blocks);
    var after := BatchOf(w, 400, 300);
    PendingAfterFirst(blocks);
    assert after.chain.queue == [Undelegate("first", 400)];
    assert after == LeftOnce(e, blocks);
  }

  lemma Seconds(blocks: nat)
    ensures blocks * MAX_BLOCK_NANOS / NANOS_PER_SECOND == blocks * AVERAGE_BLOCK_TIME
  {
    Floor(blocks * MAX_BLOCK_NANOS, NANOS_PER_SECOND, blocks * AVERAGE_BLOCK_TIME);
  }

  lemma PendingAfterFirst(blocks: nat)
    requires blocks > 0
    ensures UpdatePending(PendingDelegation(blocks, 0, 1000, 0), blocks, 0, 400)
            == Ok(PendingDelegation(blocks, blocks, 0, 400))
    ensures UpdatePending(PendingDelegation(blocks, blocks, 0, 400), 2 * blocks - 1, 0, 600)
         == Ok(PendingDelegation(blocks, blocks, 0, 1000))
  {
    Floor(blocks, blocks, 1);
  }

  lemma SecondBatch(e: nat, blocks: nat) returns (steps: seq<Step>)
    requires blocks > 0 && !KeepsApart(e, blocks) && Level(LeftOnce(e, blocks))
    ensures Run(LeftOnce(e, blocks), steps, LeftTwice(e, blocks))
    ensures forall s | s in steps :: s == NextBlock(MAX_BLOCK_NANOS) || s == UnstakeStep(600, 600)
  {
    hide Level, Possible, Next, UpdatePending, Run, Epoch;
    var w := LeftOnce(e, blocks);
    var mid := Later(w, blocks - 1, MAX_BLOCK_NANOS);
    EpochOf(blocks, 1, blocks);
    EpochOf(blocks, 1, 2 * blocks - 1);
    var head := BlocksRun(w, blocks - 1, MAX_BLOCK_NANOS);
    LaterIsLevel(w, blocks - 1, MAX_BLOCK_NANOS);
    SecondBatchLeaves(e, blocks);
    RunStep(w, head, mid, UnstakeStep(600, 600));
    steps := head + [UnstakeStep(600, 600)];
  }

  lemma SecondBatchLeaves(e: nat, blocks: nat)
    requires blocks > 0 && !KeepsApart(e, blocks) && Level(Later(LeftOnce(e, blocks), blocks - 1, MAX_BLOCK_NANOS))
    ensures var mid := Later(LeftOnce(e, blocks), blocks - 1, MAX_BLOCK_NANOS);
            Possible(mid, UnstakeStep(600, 600)) && Next(mid, UnstakeStep(600, 600)) == LeftTwice(e, blocks)
  {
    hide Level, Possible, Next, UpdatePending;
    var mid := Later(LeftOnce(e, blocks), blocks - 1, MAX_BLOCK_NANOS);
    assert mid.chain.nanos == (2 * blocks - 1) * MAX_BLOCK_NANOS;
    Seconds(blocks);
    Seconds(2 * blocks - 1);
    assert mid.chain.queue[..0] == [];
    var after := BatchOf(mid, 600, 200);
    PendingAfterFirst(blocks);
    assert after.chain.queue == [Undelegate("first", 400), Undelegate("first", 600)];
    assert after == LeftTwice(e, blocks);
  }

  // ---------------------------------------------------------------- what it costs

  lemma SecondIsDropped(c: Chain)
    requires c.delegated == FIRST_AND_SECOND && c.unbonding == 0
    requires c.queue == [Undelegate("first", 400), Undelegate("first", 600)]
    ensures Drain(c, c.queue) == c.(delegated := FIRST_AND_SECOND["first" := 500], unbonding := 400)
    ensures SumValues(FIRST_AND_SECOND["first" := 500]) == 600
  {
    DrainTwo(c, c.queue[0], c.queue[1]);
    assert "first" != "second";
    SumOfTwo("first", 900, "second", 100);
    SumUpdate(FIRST_AND_SECOND, "first", 500);
  }

  /** For every epoch length that does not keep batches apart there is such a run: the change of parameters, two
      stakes, two unstakes, and blocks as far apart as they may be. Both batches are undelegated in one
      staking epoch, at its first and its last block, from the same validator; what is queued is their sum. */
  lemma BatchesMeet(e: nat, blocks: nat) returns (steps: seq<Step>)
    requires 0 < blocks * AVERAGE_BLOCK_TIME <= MAX_EPOCH_LENGTH && !KeepsApart(e, blocks)
    ensures Start(NewHub(blocks)) && Run(NewHub(blocks), steps, LeftTwice(e, blocks))
    ensures forall s | s in steps :: s.Tx? || s == NextBlock(MAX_BLOCK_NANOS)
    ensures Epoch(0, blocks, blocks) == Epoch(0, blocks, 2 * blocks - 1)
    ensures var l := LeftTwice(e, blocks).hub;
            QueuedUnstake(LeftTwice(e, blocks).chain.queue) == Cost(l.history[1]) + Cost(l.history[2]) == 1000
  {
    hide Level, Possible, Next, Start, Run, Epoch;
    var staking := RunToStaked(e, blocks);
    var delegating := Delegating(e, blocks);
    RunThen(NewHub(blocks), staking, StakedTwice(e, blocks), delegating, Delegated(e, blocks));
    FirstBatch(e, blocks);
    RunStep(NewHub(blocks), staking + delegating, Delegated(e, blocks), UnstakeStep(1000, 400));
    var batch := SecondBatch(e, blocks);
    var before := staking + delegating + [UnstakeStep(1000, 400)];
    RunThen(NewHub(blocks), before, LeftOnce(e, blocks), batch, LeftTwice(e, blocks));
    steps := before + batch;
    EpochOf(blocks, 1, blocks);
    EpochOf(blocks, 1, 2 * blocks - 1);
    QueuedOfBoth(e, blocks);
  }

  /** Up to the change of parameters. */
  lemma RunToShortened(e: nat, blocks: nat) returns (steps: seq<Step>)
    requires 0 < blocks * AVERAGE_BLOCK_TIME <= MAX_EPOCH_LENGTH && !KeepsApart(e, blocks)
    ensures Start(NewHub(blocks)) && Run(NewHub(blocks), steps, Shortened(e, blocks)) && Level(Shortened(e, blocks))
    ensures forall s | s in steps :: s.Tx?
  {
    hide Level, Possible, Next, Start, Run;
    var naming := HubIsNew(blocks);
    Shortening(e, blocks);
    var shorten := Tx(NOTHING, Info("owner", []), UpdateParams(None, Some(e), None));
    RunStep(NewHub(blocks), naming, NamedHub(blocks), shorten);
    steps := naming + [shorten];
  }

  lemma RunToStaked(e: nat, blocks: nat) returns (steps: seq<Step>)
    requires 0 < blocks * AVERAGE_BLOCK_TIME <= MAX_EPOCH_LENGTH && !KeepsApart(e, blocks)
    ensures Start(NewHub(blocks)) && Run(NewHub(blocks), steps, StakedTwice(e, blocks)) && Level(StakedTwice(e, blocks))
    ensures forall s | s in steps :: s.Tx?
  {
    hide Level, Possible, Next, Start, Run;
    var head := RunToShortened(e, blocks);
    Staking(e, blocks);
    var first, second := StakeStep(0, 900, "first", 900), StakeStep(900, 1000, "second", 100);
    RunStep(NewHub(blocks), head, Shortened(e, blocks), first);
    RunStep(NewHub(blocks), head + [first], StakedOnce(e, blocks), second);
    steps := head + [first] + [second];
  }

  lemma QueuedOfBoth(e: nat, blocks: nat)
    requires blocks > 0
    ensures var l := LeftTwice(e, blocks).hub;
            QueuedUnstake(LeftTwice(e, blocks).chain.queue) == Cost(l.history[1]) + Cost(l.history[2]) == 1000
  {
    var queue := [Undelegate("first", 400), Undelegate("first", 600)];
    assert queue[..1] == [queue[0]] && queue[..1][..0] == [];
    OneForOne(400);
    OneForOne(600);
  }

  /** The validator has 900 coins and is asked for 1000. The chain carries out the first message and drops the
      second: 600 coins stay delegated that the hub no longer counts, and 600 that the second batch will
      cost are neither unbonding nor queued, so its release waits for coins that nobody owes. */
  lemma SecondBatchIsLost(e: nat, blocks: nat)
    requires blocks > 0
    ensures var end := LeftTwice(e, blocks);
            var after := end.(chain := NewBlock(end.chain, MAX_BLOCK_NANOS));
            && Next(end, NextBlock(MAX_BLOCK_NANOS)) == after
            && after.chain.queue == [] && SumValues(after.chain.delegated) == 600 && after.chain.unbonding == 400
            && after.hub.state.totalStakedAmount == 0 && !Shadows(after.hub.state.totalStakedAmount, after.chain)
            && Unreleased(after.hub.currentBatch, after.hub.history, 0) == 1000
  {
    hide Drain;
    var end := LeftTwice(e, blocks);
    EpochOf(blocks, 1, 2 * blocks - 1);
    EpochOf(blocks, 2, 2 * blocks);
    SecondIsDropped(end.chain);
    QueuedOfBoth(e, blocks);
    var history := end.hub.history;
    assert CostUpTo(history, 0, 1) == Cost(history[1]);
    assert CostUpTo(history, 0, 2) == Cost(history[1]) + Cost(history[2]);
  }
}
