/**
 * The first gate from an empty chain with no outside blocks and nothing lost: which chain the schedule builds,
 * in how many offers, and why freezing demands that maturity and funding fit under the minimum height.
 */
module FirstGate {
  import opened Common
  import opened Bootstrap
  import opened Funding

  datatype Progress = Progress(chain: Chain, init: Init, offers: nat)

  const BEGINNING := Progress([], Init(0, None, 0, [], false), 0)

  /** The execution a reconcile reads: everything completed is accounted and the sample is current. */
  function Settled(p: Progress): (x: Exec)
  {
    Exec(0, p.init.offer, None, None, p.init.lastAccounted, Some(p.chain))
  }

  /** The execution after the offer landed and was accounted by the worker. */
  function Receipted(p: Progress, o: Offer): (x: Exec)
  {
    Exec(0, Some(o), None, Some(Mine(o)), o.number, Some(p.chain))
  }

  /** One offer selected, committed, executed and credited; None when the schedule stalls. */
  function Round(plan: Plan, p: Progress): (r: Option<Progress>)
    requires 0 < |plan.gates| && |p.chain| < plan.gates[0]
  {
    var o := NewOffer(plan, p.init, Settled(p), 0);
    var init := Credited(plan, p.init.(offer := Some(o)), Receipted(p, o));
    if MAX_INT64 < o.number || init.lastAccounted != o.number then None
    else Some(Progress(Mined(p.chain, Mine(o)), init, p.offers + 1))
  }

  /** Rounds until the ceiling. */
  function Schedule(plan: Plan, p: Progress): (r: Option<Progress>)
    requires 0 < |plan.gates| && |p.chain| <= plan.gates[0]
    decreases plan.gates[0] - |p.chain|
  {
    if |p.chain| == plan.gates[0] then Some(p)
    else
      match Round(plan, p)
      case None => None
      case Some(next) =>
        RoundFits(plan, p);
        Schedule(plan, next)
  }

  lemma RoundFits(plan: Plan, p: Progress)
    requires 0 < |plan.gates| && |p.chain| < plan.gates[0]
    ensures Round(plan, p).Some? ==> |p.chain| < |Round(plan, p).value.chain| <= plan.gates[0]
  {
  }

  // ---------------------------------------------------------------------------
  // The shape of the chain

  /** The first j miner wallets, each paid its outputs in turn. */
  function Full(plan: Plan, j: nat): (c: Chain)
    requires j <= |plan.miners| && 0 <= plan.outputs
  {
    if j == 0 then [] else Full(plan, j - 1) + Repeat(plan.miners[j - 1], plan.outputs)
  }

  function Payee(plan: Plan, j: nat): (w: Wallet)
  {
    if j < |plan.miners| then plan.miners[j] else plan.payout
  }

  lemma {:induction false} FullCounts(plan: Plan, j: nat, i: nat)
    requires Fits(plan) && j <= |plan.miners| && i < |plan.miners|
    ensures Count(Full(plan, j), plan.miners[i]) == if i < j then plan.outputs else 0
  {
    if j != 0 {
      FullCounts(plan, j - 1, i);
      PaysMore(Full(plan, j - 1), plan.miners[j - 1], plan.outputs, plan.miners[i]);
    }
  }

  /** k times n, by addition. */
  function Times(k: nat, n: int): (r: int)
  {
    if k == 0 then 0 else Times(k - 1, n) + n
  }

  lemma {:induction false} TimesIsProduct(k: nat, n: int)
    ensures Times(k, n) == k * n
  {
    if k != 0 {
      TimesIsProduct(k - 1, n);
      assert k * n == (k - 1) * n + n;
    }
  }

  /** freezeInitialization's acceptance of the first gate, with the demand written as a sum. */
  ghost predicate Fits(plan: Plan)
  {
    && 1 <= plan.outputs <= MAX_INT32
    && 0 < |plan.miners|
    && COINBASE_MATURITY + Times(|plan.miners|, plan.outputs) <= plan.minimum
    && (forall i, j :: 0 <= i < j < |plan.miners| ==> plan.miners[i] != plan.miners[j])
    && 0 < |plan.gates| && plan.gates[0] == plan.minimum && 0 < plan.minimum
  }

  lemma {:induction false} FullLength(plan: Plan, j: nat)
    requires j <= |plan.miners| && 0 <= plan.outputs
    ensures |Full(plan, j)| == Times(j, plan.outputs)
  {
    if j != 0 {
      FullLength(plan, j - 1);
    }
  }

  lemma TimesStep(k: nat, n: int)
    requires 0 < k
    ensures Times(k, n) == n + Times(k - 1, n)
  {
  }

  lemma {:induction false} TimesGrows(a: nat, b: nat, n: int)
    requires a <= b && 0 <= n
    ensures Times(a, n) <= Times(b, n)
  {
    if a < b {
      TimesGrows(a, b - 1, n);
    }
  }

  /** The counter of miner wallet i when j wallets are funded and the next payee has r blocks. */
  function Held(plan: Plan, j: nat, r: nat, i: nat): (n: int)
    requires i < |plan.miners|
  {
    if j == |plan.miners| then plan.outputs + (if plan.miners[i] == plan.payout then r else 0)
    else if i < j then plan.outputs
    else if i == j then r
    else 0
  }

  /** Where a schedule stands: j wallets funded, r blocks into the next payee, and the counters agree. */
  ghost predicate At(plan: Plan, p: Progress, j: nat, r: nat)
    requires Fits(plan)
  {
    && j <= |plan.miners| && (j < |plan.miners| ==> r < plan.outputs)
    && p.chain == Full(plan, j) + Repeat(Payee(plan, j), r)
    && |p.chain| <= plan.minimum
    && (forall i :: 0 <= i < |plan.miners| ==> Outputs(p.init.funded, plan.miners[i]) == Held(plan, j, r, i))
    && p.init.lastAccounted == p.offers <= |p.chain| && !p.init.prepared
    && (p.init.offer.Some? ==> p.init.offer.value.number <= p.offers)
  }

  /** How much room is left behind the wallets already funded. */
  lemma Room(plan: Plan, j: nat)
    requires Fits(plan) && j <= |plan.miners|
    ensures |Full(plan, j)| + COINBASE_MATURITY <= plan.minimum
  {
    FullLength(plan, j);
    TimesGrows(j, |plan.miners|, plan.outputs);
  }

  /** The selection loop passes the funded wallets and stops at the first short one. */
  lemma {:induction false} Selects(plan: Plan, p: Progress, j: nat, r: nat, i: nat)
    requires Fits(plan) && At(plan, p, j, r) && i <= j
    ensures Select(plan, plan.miners[i..], p.init.funded) ==
      Choice(Payee(plan, j), if j < |plan.miners| then plan.outputs - r else 0)
    decreases j - i
  {
    if i < |plan.miners| {
      assert plan.miners[i..][1..] == plan.miners[i + 1..];
      if i < j {
        Selects(plan, p, j, r, i + 1);
      }
    }
  }

  // ---------------------------------------------------------------------------
  // One round

  /** How many blocks the next offer carries. */
  function Stride(plan: Plan, wanted: int): (n: int)
    ensures 0 < wanted ==> 1 <= n <= wanted
  {
    Min(BatchLimit(plan), wanted)
  }

  function Wanted(plan: Plan, j: nat, r: nat): (n: int)
    requires j <= |plan.miners| && 0 <= plan.outputs
  {
    if j < |plan.miners| then plan.outputs - r else plan.minimum - |Full(plan, j)| - r
  }

  lemma RoundOffer(plan: Plan, p: Progress, j: nat, r: nat)
    requires Fits(plan) && At(plan, p, j, r) && |p.chain| < plan.minimum
    ensures var o := NewOffer(plan, p.init, Settled(p), 0);
      && o.wallet == Payee(plan, j) && OfferBlocks(o.count) == Stride(plan, Wanted(plan, j, r))
      && o.number == p.offers + 1 && o.tip == p.chain && CountAuthorized(plan, o) && Known(plan, o)
      && o.ceiling == plan.minimum
  {
    Selects(plan, p, j, r, 0);
    assert plan.miners[0..] == plan.miners;
    if j < |plan.miners| {
      Room(plan, j + 1);
    }
  }

  lemma {:induction false} RepeatJoins(w: Wallet, a: nat, b: nat)
    ensures Repeat(w, a) + Repeat(w, b) == Repeat(w, a + b)
  {
    if b != 0 {
      RepeatJoins(w, a, b - 1);
      assert Repeat(w, a) + Repeat(w, b) == (Repeat(w, a) + Repeat(w, b - 1)) + [w];
    }
  }

  /** Whether the counter that this payee has, if any, stays within 32 bits. */
  predicate CounterFits(plan: Plan, outputs: int)
  {
    plan.payout !in plan.miners || outputs <= MAX_INT32
  }

  /** A round is credited in full, or stalls on the payee's counter. */
  lemma RoundCredits(plan: Plan, p: Progress, j: nat, r: nat)
    requires Fits(plan) && plan.minimum <= MAX_INT64 && At(plan, p, j, r) && |p.chain| < plan.minimum
    ensures var n := Stride(plan, Wanted(plan, j, r));
      var w := Payee(plan, j);
      && (Round(plan, p).Some? <==> (j < |plan.miners| || CounterFits(plan, plan.outputs + r + n)))
      && (Round(plan, p).Some? ==>
            var q := Round(plan, p).value;
            && q.chain == p.chain + Repeat(w, n)
            && (w in plan.miners ==> Credit(p.init.funded, w, n) == Some(q.init.funded))
            && (w !in plan.miners ==> q.init.funded == p.init.funded)
            && q.init.lastAccounted == q.offers == p.offers + 1 && !q.init.prepared
            && q.init.offer.Some? && q.init.offer.value.number == q.offers)
  {
    RoundOffer(plan, p, j, r);
    var o := NewOffer(plan, p.init, Settled(p), 0);
    if o.wallet in plan.miners {
      PayeeCounter(plan, p, j, r);
      CreditExactly(p.init.funded, o.wallet, OfferBlocks(o.count));
    }
  }

  /** Where the blocks of one offer leave the chain. */
  lemma ChainMoves(plan: Plan, chain: Chain, j: nat, r: nat, n: nat)
    requires j <= |plan.miners| && 0 <= plan.outputs
    requires chain == Full(plan, j) + Repeat(Payee(plan, j), r)
    ensures chain + Repeat(Payee(plan, j), n) == Full(plan, j) + Repeat(Payee(plan, j), r + n)
    ensures j < |plan.miners| && r + n == plan.outputs ==>
      Full(plan, j) + Repeat(Payee(plan, j), r + n) == Full(plan, j + 1) + Repeat(Payee(plan, j + 1), 0)
  {
    RepeatJoins(Payee(plan, j), r, n);
    var w := Payee(plan, j);
    assert chain + Repeat(w, n) == Full(plan, j) + (Repeat(w, r) + Repeat(w, n));
  }

  /** Where they leave the counters. */
  lemma CountersMove(plan: Plan, before: seq<FundingCount>, after: seq<FundingCount>, j: nat, r: nat, n: nat, i: nat)
    requires Fits(plan) && j <= |plan.miners| && i < |plan.miners|
    requires Outputs(before, plan.miners[i]) == Held(plan, j, r, i)
    requires Payee(plan, j) in plan.miners ==> Credit(before, Payee(plan, j), n) == Some(after)
    requires Payee(plan, j) !in plan.miners ==> after == before
    ensures Outputs(after, plan.miners[i]) == Held(plan, j, r + n, i)
    ensures j < |plan.miners| && r + n == plan.outputs ==> Held(plan, j, r + n, i) == Held(plan, j + 1, 0, i)
  {
    CreditAdds(before, Payee(plan, j), n, plan.miners[i]);
  }

  /** Where a completed round stands. */
  lemma RoundMoves(plan: Plan, p: Progress, j: nat, r: nat, q: Progress)
    requires Fits(plan) && plan.minimum <= MAX_INT64 && At(plan, p, j, r) && |p.chain| < plan.minimum
    requires Round(plan, p) == Some(q)
    ensures var n := Stride(plan, Wanted(plan, j, r));
      && q.offers == p.offers + 1 && |q.chain| == |p.chain| + n
      && if j < |plan.miners| && r + n == plan.outputs then At(plan, q, j + 1, 0) else At(plan, q, j, r + n)
  {
    RoundCredits(plan, p, j, r);
    RoundFits(plan, p);
    Stands(plan, p, j, r, q);
  }

  lemma Stands(plan: Plan, p: Progress, j: nat, r: nat, q: Progress)
    requires Fits(plan) && At(plan, p, j, r) && |p.chain| < plan.minimum
    requires var w, n := Payee(plan, j), Stride(plan, Wanted(plan, j, r));
      && q.chain == p.chain + Repeat(w, n) && |q.chain| <= plan.minimum
      && (w in plan.miners ==> Credit(p.init.funded, w, n) == Some(q.init.funded))
      && (w !in plan.miners ==> q.init.funded == p.init.funded)
      && q.init.lastAccounted == q.offers == p.offers + 1 && !q.init.prepared
      && q.init.offer.Some? && q.init.offer.value.number == q.offers
    ensures var n := Stride(plan, Wanted(plan, j, r));
      if j < |plan.miners| && r + n == plan.outputs then At(plan, q, j + 1, 0) else At(plan, q, j, r + n)
  {
    var n := Stride(plan, Wanted(plan, j, r));
    ChainMoves(plan, p.chain, j, r, n);
    forall i | 0 <= i < |plan.miners|
      ensures Outputs(q.init.funded, plan.miners[i]) == Held(plan, j, r + n, i)
      ensures j < |plan.miners| && r + n == plan.outputs ==> Held(plan, j, r + n, i) == Held(plan, j + 1, 0, i)
    {
      CountersMove(plan, p.init.funded, q.init.funded, j, r, n, i);
    }
  }

  /** A credit of an existing or new counter is refused exactly on overflow. */
  lemma {:induction false} CreditExactly(funded: seq<FundingCount>, w: Wallet, blocks: int)
    requires 0 < blocks <= MAX_INT32
    ensures Credit(funded, w, blocks).Some? <==> Outputs(funded, w) + blocks <= MAX_INT32
  {
    if funded != [] {
      CreditExactly(funded[1..], w, blocks);
    }
  }

  lemma PayeeCounter(plan: Plan, p: Progress, j: nat, r: nat)
    requires Fits(plan) && At(plan, p, j, r) && Payee(plan, j) in plan.miners
    ensures Outputs(p.init.funded, Payee(plan, j)) == if j < |plan.miners| then r else plan.outputs + r
  {
    var i :| 0 <= i < |plan.miners| && plan.miners[i] == Payee(plan, j);
  }

  // ---------------------------------------------------------------------------
  // Whole phases

  /** Blocks divided over offers of at most the batch limit, rounded up. */
  function Offers(plan: Plan, blocks: int): (n: int)
    requires 0 <= blocks
    ensures 0 <= n
  {
    if plan.batch then (blocks + (MAX_GENERATED_BLOCKS - 1)) / MAX_GENERATED_BLOCKS else blocks
  }

  lemma OffersStep(plan: Plan, wanted: int)
    requires 0 < wanted
    ensures Offers(plan, wanted) == 1 + Offers(plan, wanted - Stride(plan, wanted))
  {
  }

  lemma ScheduleStep(plan: Plan, p: Progress)
    requires 0 < |plan.gates| && |p.chain| < plan.gates[0] && Round(plan, p).Some?
    ensures |Round(plan, p).value.chain| <= plan.gates[0]
    ensures Schedule(plan, p) == Schedule(plan, Round(plan, p).value)
  {
    RoundFits(plan, p);
  }

  /** One offer to a miner wallet. */
  lemma FundRound(plan: Plan, p: Progress, j: nat, r: nat, n: nat) returns (q: Progress)
    requires Fits(plan) && plan.minimum <= MAX_INT64 && At(plan, p, j, r) && j < |plan.miners|
    requires n == Stride(plan, plan.outputs - r)
    ensures if r + n == plan.outputs then At(plan, q, j + 1, 0) else At(plan, q, j, r + n)
    ensures q.offers == p.offers + 1 && Schedule(plan, p) == Schedule(plan, q)
  {
    BelowCeiling(plan, p, j, r);
    RoundCredits(plan, p, j, r);
    q := Round(plan, p).value;
    RoundMoves(plan, p, j, r, q);
    ScheduleStep(plan, p);
  }

  /** The rest of one miner wallet's outputs. */
  lemma {:induction false} FundMiner(plan: Plan, p: Progress, j: nat, r: nat) returns (q: Progress)
    requires Fits(plan) && plan.minimum <= MAX_INT64 && At(plan, p, j, r) && j < |plan.miners|
    ensures At(plan, q, j + 1, 0) && Schedule(plan, p) == Schedule(plan, q)
    ensures q.offers == p.offers + Offers(plan, plan.outputs - r)
    decreases plan.outputs - r
  {
    var n := Stride(plan, plan.outputs - r);
    q := FundRound(plan, p, j, r, n);
    OffersStep(plan, plan.outputs - r);
    if r + n < plan.outputs {
      q := FundMiner(plan, q, j, r + n);
    }
  }

  lemma BelowCeiling(plan: Plan, p: Progress, j: nat, r: nat)
    requires Fits(plan) && At(plan, p, j, r) && j < |plan.miners|
    ensures |p.chain| < plan.minimum
  {
    Room(plan, j + 1);
  }

  lemma {:induction false} FundAll(plan: Plan, p: Progress, j: nat) returns (q: Progress)
    requires Fits(plan) && plan.minimum <= MAX_INT64 && At(plan, p, j, 0)
    ensures At(plan, q, |plan.miners|, 0) && Schedule(plan, p) == Schedule(plan, q)
    ensures q.offers == p.offers + Times(|plan.miners| - j, Offers(plan, plan.outputs))
    decreases |plan.miners| - j
  {
    if j == |plan.miners| {
      q := p;
    } else {
      var next := FundMiner(plan, p, j, 0);
      q := FundAll(plan, next, j + 1);
      TimesStep(|plan.miners| - j, Offers(plan, plan.outputs));
    }
  }

  /** One offer to the payout wallet. */
  lemma PayOutRound(plan: Plan, p: Progress, r: nat, n: nat) returns (next: Option<Progress>)
    requires Fits(plan) && plan.minimum <= MAX_INT64 && At(plan, p, |plan.miners|, r) && |p.chain| < plan.minimum
    requires n == Stride(plan, Wanted(plan, |plan.miners|, r))
    ensures next.Some? <==> CounterFits(plan, plan.outputs + r + n)
    ensures next.Some? ==>
      && At(plan, next.value, |plan.miners|, r + n) && next.value.offers == p.offers + 1
      && |next.value.chain| == |p.chain| + n
    ensures Schedule(plan, p) == if next.Some? then Schedule(plan, next.value) else None
  {
    next := Round(plan, p);
    RoundCredits(plan, p, |plan.miners|, r);
    if next.Some? {
      ScheduleStep(plan, p);
      RoundMoves(plan, p, |plan.miners|, r, next.value);
    }
  }

  /** The payout wallet's blocks up to the ceiling. */
  lemma {:induction false} PayOut(plan: Plan, p: Progress, r: nat, rest: nat) returns (end: Option<Progress>)
    requires Fits(plan) && plan.minimum <= MAX_INT64 && At(plan, p, |plan.miners|, r)
    requires CounterFits(plan, plan.outputs + r) && rest == plan.minimum - |Full(plan, |plan.miners|)|
    ensures Schedule(plan, p) == end && r <= rest
    ensures end.Some? <==> CounterFits(plan, plan.outputs + rest)
    ensures end.Some? ==>
      && end.value.chain == Full(plan, |plan.miners|) + Repeat(plan.payout, rest)
      && end.value.offers == p.offers + Offers(plan, rest - r)
    decreases rest - r
  {
    if r == rest {
      end := Some(p);
    } else {
      var n := Stride(plan, rest - r);
      end := PayOutRound(plan, p, r, n);
      OffersStep(plan, rest - r);
      if end.Some? {
        end := PayOut(plan, end.value, r + n, rest);
      }
    }
  }

  // ---------------------------------------------------------------------------
  // Maturity

  /** How many of a wallet's outputs among the first n blocks have enough confirmations to be spent. */
  function Mature(chain: Chain, n: nat, w: Wallet): (m: nat)
    requires n <= |chain|
  {
    if n == 0 then 0
    else Mature(chain, n - 1, w) + (if chain[n - 1] == w && COINBASE_MATURITY + 1 <= |chain| - (n - 1) then 1 else 0)
  }

  ghost predicate Prepared(plan: Plan, chain: Chain)
  {
    forall i :: 0 <= i < |plan.miners| ==> plan.outputs <= Mature(chain, |chain|, plan.miners[i])
  }

  /** The mature outputs are those of the prefix that lies deep enough. */
  lemma {:induction false} MatureIsDeep(chain: Chain, n: nat, w: Wallet)
    requires n <= |chain|
    ensures var deep := Max(0, Min(n, |chain| - COINBASE_MATURITY));
      Mature(chain, n, w) == Count(chain[..deep], w)
  {
    if n != 0 {
      MatureIsDeep(chain, n - 1, w);
      if n <= |chain| - COINBASE_MATURITY {
        assert chain[..n][..n - 1] == chain[..n - 1];
      }
    }
  }

  function CountAny(chain: Chain, miners: seq<Wallet>): (n: nat)
  {
    if miners == [] then 0 else CountAny(chain, miners[..|miners| - 1]) + Count(chain, miners[|miners| - 1])
  }

  /** Distinct wallets share a chain's blocks between them. */
  lemma {:induction false} BlocksAreShared(chain: Chain, miners: seq<Wallet>)
    requires forall i, j :: 0 <= i < j < |miners| ==> miners[i] != miners[j]
    ensures CountAny(chain, miners) <= |chain|
  {
    if chain == [] {
      NothingCounted(miners);
    } else {
      BlocksAreShared(chain[..|chain| - 1], miners);
      OneBlockCounts(chain, miners);
    }
  }

  lemma {:induction false} NothingCounted(miners: seq<Wallet>)
    ensures CountAny([], miners) == 0
  {
    if miners != [] {
      NothingCounted(miners[..|miners| - 1]);
    }
  }

  lemma {:induction false} OneBlockCounts(chain: Chain, miners: seq<Wallet>)
    requires chain != []
    requires forall i, j :: 0 <= i < j < |miners| ==> miners[i] != miners[j]
    ensures CountAny(chain, miners) ==
      CountAny(chain[..|chain| - 1], miners) + (if chain[|chain| - 1] in miners then 1 else 0)
  {
    if miners != [] {
      var last := |miners| - 1;
      OneBlockCounts(chain, miners[..last]);
      assert miners == miners[..last] + [miners[last]];
    }
  }

  lemma {:induction false} EachAtLeast(chain: Chain, miners: seq<Wallet>, outputs: int)
    requires forall i :: 0 <= i < |miners| ==> outputs <= Count(chain, miners[i])
    ensures Times(|miners|, outputs) <= CountAny(chain, miners)
  {
    if miners != [] {
      var last := |miners| - 1;
      EachAtLeast(chain, miners[..last], outputs);
    }
  }

  // ---------------------------------------------------------------------------
  // Results

  /** No chain whatever is prepared unless it is at least as high as freezing demands. */
  lemma PreparationNeedsTheCapacity(plan: Plan, chain: Chain)
    requires 1 <= plan.outputs && 0 < |plan.miners|
    requires forall i, j :: 0 <= i < j < |plan.miners| ==> plan.miners[i] != plan.miners[j]
    requires Prepared(plan, chain)
    ensures COINBASE_MATURITY + |plan.miners| * plan.outputs <= |chain|
  {
    var deep := chain[..Max(0, |chain| - COINBASE_MATURITY)];
    forall i | 0 <= i < |plan.miners|
      ensures plan.outputs <= Count(deep, plan.miners[i])
    {
      MatureIsDeep(chain, |chain|, plan.miners[i]);
    }
    EachAtLeast(deep, plan.miners, plan.outputs);
    BlocksAreShared(deep, plan.miners);
    TimesGrows(1, |plan.miners|, plan.outputs);
    TimesIsProduct(|plan.miners|, plan.outputs);
  }

  lemma TheSchedule(plan: Plan, p: Progress, rest: nat) returns (end: Option<Progress>)
    requires Fits(plan) && plan.minimum <= MAX_INT64 && At(plan, p, 0, 0)
    requires rest == plan.minimum - |Full(plan, |plan.miners|)|
    ensures end == Schedule(plan, p)
    ensures end.Some? <==> CounterFits(plan, plan.outputs + rest)
    ensures end.Some? ==>
      && end.value.chain == Full(plan, |plan.miners|) + Repeat(plan.payout, rest)
      && end.value.offers == p.offers + Times(|plan.miners|, Offers(plan, plan.outputs)) + Offers(plan, rest)
  {
    var q := FundAll(plan, p, 0);
    end := PayOut(plan, q, 0, rest);
  }

  lemma Begins(plan: Plan)
    requires Fits(plan)
    ensures At(plan, BEGINNING, 0, 0)
  {
  }

  /**
   * The schedule pays every miner wallet its outputs in order and then the payout wallet up to the minimum
   * height, in the fewest offers the batch limit allows; every miner's outputs are then mature. It completes
   * exactly when the payout wallet, should it also be a miner's, stays within its 32-bit counter.
   */
  lemma FirstGatePrepares(plan: Plan)
    requires Frozen(plan) && plan.minimum <= MAX_INT64
    ensures var rest := plan.minimum - |plan.miners| * plan.outputs;
      var end := Schedule(plan, BEGINNING);
      && (end.Some? <==> CounterFits(plan, plan.outputs + rest))
      && (end.Some? ==>
            && end.value.chain == Full(plan, |plan.miners|) + Repeat(plan.payout, rest)
            && |end.value.chain| == plan.minimum
            && end.value.offers == |plan.miners| * Offers(plan, plan.outputs) + Offers(plan, rest)
            && Prepared(plan, end.value.chain))
  {
    TimesIsProduct(|plan.miners|, plan.outputs);
    TimesIsProduct(|plan.miners|, Offers(plan, plan.outputs));
    TimesGrows(1, |plan.miners|, plan.outputs);
    FullLength(plan, |plan.miners|);
    Begins(plan);
    var end := TheSchedule(plan, BEGINNING, plan.minimum - |Full(plan, |plan.miners|)|);
    if end.Some? {
      FullIsMature(plan, end.value.chain);
    }
  }

  lemma FullIsMature(plan: Plan, chain: Chain)
    requires Fits(plan) && |chain| == plan.minimum && Full(plan, |plan.miners|) <= chain
    ensures Prepared(plan, chain)
  {
    var full := Full(plan, |plan.miners|);
    Room(plan, |plan.miners|);
    forall i | 0 <= i < |plan.miners|
      ensures plan.outputs <= Mature(chain, |chain|, plan.miners[i])
    {
      FullCounts(plan, |plan.miners|, i);
      MatureIsDeep(chain, |chain|, plan.miners[i]);
      var deep := chain[..|chain| - COINBASE_MATURITY];
      assert deep[..|full|] == full;
      CountOfPrefix(deep, |full|, plan.miners[i]);
    }
  }

  /** With at most 500 outputs a wallet, batching funds each miner in a single offer. */
  lemma BatchingIsOneOfferPerMiner(plan: Plan)
    requires Frozen(plan) && plan.minimum <= MAX_INT64 && plan.batch && plan.outputs <= MAX_GENERATED_BLOCKS
    requires plan.payout !in plan.miners
    ensures var rest := plan.minimum - |plan.miners| * plan.outputs;
      var end := Schedule(plan, BEGINNING);
      end.Some? && end.value.offers == |plan.miners| + (rest + 499) / 500
  {
    FirstGatePrepares(plan);
    assert Offers(plan, plan.outputs) == 1;
  }
}
