/**
 * Bootstrap funding under a frozen plan: how large an offer may be, whom it pays, and how a retained
 * receipt is credited.
 */
module Bootstrap {
  import opened Common

  const MAX_GENERATED_BLOCKS := 500
  const MAX_INT32 := 0x7fff_ffff
  const COINBASE_MATURITY := 100

  type Wallet = Uid

  /**
   * The coinbase owner of every block, lowest first; the height is the length. A block hash commits to
   * its whole history, so a tip is identified by the chain below it.
   */
  type Chain = seq<Wallet>

  /** The frozen initialization. `gates` are the ascending ceilings; the first is the minimum height. */
  datatype Plan = Plan(miners: seq<Wallet>, payout: Wallet, outputs: int, minimum: int, batch: bool, gates: seq<int>)

  /** freezeInitialization's acceptance, over captured wallets that are distinct objects. */
  ghost predicate Frozen(plan: Plan)
  {
    && 1 <= plan.outputs <= MAX_INT32
    && 0 < |plan.miners|
    && COINBASE_MATURITY + |plan.miners| * plan.outputs <= plan.minimum
    && (forall i, j :: 0 <= i < j < |plan.miners| ==> plan.miners[i] != plan.miners[j])
    && 0 < |plan.gates| && plan.gates[0] == plan.minimum
    && (forall i, j :: 0 <= i < j < |plan.gates| ==> plan.gates[i] < plan.gates[j])
  }

  datatype Offer = Offer(number: int, wallet: Wallet, count: int, tip: Chain, ceiling: int)

  datatype FundingCount = FundingCount(wallet: Wallet, outputs: int)

  // ---------------------------------------------------------------------------
  // Batching

  function BatchLimit(plan: Plan): (n: int)
  {
    if plan.batch then MAX_GENERATED_BLOCKS else 1
  }

  /** offerCountAuthorized: the resulting height stays under the ceiling; more than one block only in the first gate. */
  predicate CountAuthorized(plan: Plan, offer: Offer)
  {
    var blocks := OfferBlocks(offer.count);
    && 0 <= offer.count
    && |offer.tip| < offer.ceiling && blocks <= offer.ceiling - |offer.tip|
    && (blocks == 1 || (offer.ceiling == plan.minimum && blocks <= BatchLimit(plan)))
  }

  /** bootstrapBatch: the count of a new first-gate offer; zero stands for a single block. */
  function BootstrapBatch(plan: Plan, height: int, ceiling: int, remaining: int): (count: int)
    requires height < ceiling
    ensures 0 <= count && OfferBlocks(count) <= ceiling - height
    ensures 0 < remaining ==> OfferBlocks(count) <= remaining
    ensures OfferBlocks(count) == 1 || (ceiling == plan.minimum && OfferBlocks(count) <= BatchLimit(plan))
  {
    var most := Min(Min(BatchLimit(plan), ceiling - height), MAX_GENERATED_BLOCKS);
    var blocks := if 0 < remaining then Min(most, remaining) else most;
    if blocks <= 1 || ceiling != plan.minimum then 0 else blocks
  }

  // ---------------------------------------------------------------------------
  // Funding counters

  function Outputs(funded: seq<FundingCount>, wallet: Wallet): (n: int)
  {
    if funded == [] then 0
    else if funded[0].wallet == wallet then funded[0].outputs
    else Outputs(funded[1..], wallet)
  }

  /** The counters after crediting a wallet; None when the wallet's counter would leave its 32-bit range. */
  function Credit(funded: seq<FundingCount>, wallet: Wallet, blocks: int): (r: Option<seq<FundingCount>>)
  {
    if funded == [] then Some([FundingCount(wallet, blocks)])
    else if funded[0].wallet == wallet then
      if funded[0].outputs > MAX_INT32 - blocks then None
      else Some([FundingCount(wallet, funded[0].outputs + blocks)] + funded[1..])
    else
      match Credit(funded[1..], wallet, blocks)
      case None => None
      case Some(rest) => Some([funded[0]] + rest)
  }

  /** Crediting adds to that wallet, to no other, and is refused only on overflow. */
  lemma {:induction false} CreditAdds(funded: seq<FundingCount>, wallet: Wallet, blocks: int, other: Wallet)
    ensures Credit(funded, wallet, blocks).Some? ==>
      Outputs(Credit(funded, wallet, blocks).value, other) ==
        Outputs(funded, other) + (if other == wallet then blocks else 0)
    ensures Outputs(funded, wallet) <= MAX_INT32 - blocks ==> Credit(funded, wallet, blocks).Some?
  {
    if funded != [] {
      CreditAdds(funded[1..], wallet, blocks, other);
    }
  }

  predicate Known(plan: Plan, offer: Offer)
  {
    offer.wallet == plan.payout || offer.wallet in plan.miners
  }

  predicate Funds(plan: Plan, offer: Offer)
  {
    offer.wallet in plan.miners && |offer.tip| < plan.minimum
  }

  /** accountBootstrapReceipt on the retained receipt, None when nothing is accounted. */
  function AccountOffer(plan: Plan, funded: seq<FundingCount>, lastAccounted: int, completed: int, offer: Offer)
    : (r: Option<seq<FundingCount>>)
  {
    if offer.number <= lastAccounted || offer.number != completed || !CountAuthorized(plan, offer) || !Known(plan, offer) then None
    else if Funds(plan, offer) then Credit(funded, offer.wallet, OfferBlocks(offer.count))
    else Some(funded)
  }

  /** The status fields that a receipt changes in place. */
  class Progress {
    var funded: seq<FundingCount>
    var lastAccounted: int

    constructor ()
      ensures funded == [] && lastAccounted == 0
    {
      funded, lastAccounted := [], 0;
    }

    /** accountBootstrapReceipt: counters and cursor move together, or not at all. */
    method AccountBootstrapReceipt(plan: Plan, completed: int, offer: Offer) returns (accounted: bool)
      modifies this
      ensures accounted <==> AccountOffer(plan, old(funded), old(lastAccounted), completed, offer).Some?
      ensures accounted ==>
        funded == AccountOffer(plan, old(funded), old(lastAccounted), completed, offer).value && lastAccounted == offer.number
      ensures !accounted ==> funded == old(funded) && lastAccounted == old(lastAccounted)
    {
      if offer.number <= lastAccounted || offer.number != completed || !CountAuthorized(plan, offer) {
        return false;
      }
      var blocks := if offer.count < 1 then 1 else offer.count;
      var known, funding := offer.wallet == plan.payout, false;
      var i := 0;
      while i < |plan.miners|
        invariant 0 <= i <= |plan.miners|
        invariant known == (offer.wallet == plan.payout || offer.wallet in plan.miners[..i])
        invariant funding == (offer.wallet in plan.miners[..i] && |offer.tip| < plan.minimum)
      {
        assert plan.miners[..i + 1] == plan.miners[..i] + [plan.miners[i]];
        if plan.miners[i] == offer.wallet {
          known := true;
          funding := |offer.tip| < plan.minimum;
        }
        i := i + 1;
      }
      assert plan.miners[..i] == plan.miners;
      if !known {
        return false;
      }
      if funding {
        var credited := AddOutputs(offer.wallet, blocks);
        if !credited {
          return false;
        }
      }
      lastAccounted := offer.number;
      return true;
    }

    /** The scan over the retained counters. */
    method AddOutputs(wallet: Wallet, blocks: int) returns (credited: bool)
      modifies this`funded
      ensures credited <==> Credit(old(funded), wallet, blocks).Some?
      ensures funded == if credited then Credit(old(funded), wallet, blocks).value else old(funded)
    {
      var i := 0;
      ghost var before := funded;
      assert before[0..] == before;
      ResumeFromNothing(Credit(before, wallet, blocks));
      while i < |funded|
        invariant 0 <= i <= |funded|
        invariant funded == before
        invariant Credit(before, wallet, blocks) == Resume(before[..i], Credit(before[i..], wallet, blocks))
      {
        if funded[i].wallet == wallet {
          if funded[i].outputs > MAX_INT32 - blocks {
            return false;
          }
          funded := funded[i := FundingCount(wallet, funded[i].outputs + blocks)];
          assert before[i..][1..] == before[i + 1..];
          assert funded == before[..i] + ([FundingCount(wallet, before[i].outputs + blocks)] + before[i + 1..]);
          return true;
        }
        StepPast(before, i, wallet, blocks);
        i := i + 1;
      }
      assert before[i..] == [];
      funded := funded + [FundingCount(wallet, blocks)];
      return true;
    }
  }

  /** A credit further down the list, with the counters already passed put back in front. */
  function Resume(front: seq<FundingCount>, credit: Option<seq<FundingCount>>): (r: Option<seq<FundingCount>>)
  {
    match credit
    case None => None
    case Some(rest) => Some(front + rest)
  }

  lemma ResumeFromNothing(credit: Option<seq<FundingCount>>)
    ensures Resume([], credit) == credit
  {
    if credit.Some? {
      assert [] + credit.value == credit.value;
    }
  }

  lemma StepPast(funded: seq<FundingCount>, i: nat, wallet: Wallet, blocks: int)
    requires i < |funded| && funded[i].wallet != wallet
    ensures Resume(funded[..i], Credit(funded[i..], wallet, blocks)) ==
            Resume(funded[..i + 1], Credit(funded[i + 1..], wallet, blocks))
  {
    assert funded[i..][1..] == funded[i + 1..];
    match Credit(funded[i + 1..], wallet, blocks) {
      case None =>
      case Some(rest) => assert funded[..i] + ([funded[i]] + rest) == funded[..i + 1] + rest;
    }
  }

  // ---------------------------------------------------------------------------
  // Choosing whom the next offer pays

  datatype Choice = Choice(wallet: Wallet, remaining: int)

  /** The first miner wallet still short of outputs, else the payout wallet. */
  function Select(plan: Plan, miners: seq<Wallet>, funded: seq<FundingCount>): (c: Choice)
    ensures c.remaining == 0 ==> c.wallet == plan.payout
    ensures c.remaining != 0 ==>
      c.wallet in miners && 0 < c.remaining == plan.outputs - Outputs(funded, c.wallet)
  {
    if miners == [] then Choice(plan.payout, 0)
    else if Outputs(funded, miners[0]) < plan.outputs then Choice(miners[0], plan.outputs - Outputs(funded, miners[0]))
    else Select(plan, miners[1..], funded)
  }

  /** How many of a chain's blocks pay a wallet. */
  function Count(chain: Chain, wallet: Wallet): (n: nat)
  {
    if chain == [] then 0
    else Count(chain[..|chain| - 1], wallet) + (if chain[|chain| - 1] == wallet then 1 else 0)
  }

  function Repeat(wallet: Wallet, n: nat): (r: Chain)
    ensures |r| == n
  {
    if n == 0 then [] else Repeat(wallet, n - 1) + [wallet]
  }

  lemma {:induction false} CountConcat(a: Chain, b: Chain, wallet: Wallet)
    ensures Count(a + b, wallet) == Count(a, wallet) + Count(b, wallet)
  {
    if b == [] {
      assert a + b == a;
    } else {
      assert (a + b)[..|a + b| - 1] == a + b[..|b| - 1];
      CountConcat(a, b[..|b| - 1], wallet);
    }
  }

  lemma {:induction false} CountRepeat(wallet: Wallet, n: nat, other: Wallet)
    ensures Count(Repeat(wallet, n), other) == (if other == wallet then n else 0)
  {
    if n != 0 {
      assert Repeat(wallet, n)[..n - 1] == Repeat(wallet, n - 1);
      CountRepeat(wallet, n - 1, other);
    }
  }

  lemma PaysMore(chain: Chain, payee: Wallet, n: nat, w: Wallet)
    ensures Count(chain + Repeat(payee, n), w) == Count(chain, w) + (if w == payee then n else 0)
  {
    CountConcat(chain, Repeat(payee, n), w);
    CountRepeat(payee, n, w);
  }

  lemma CountOfPrefix(chain: Chain, n: nat, wallet: Wallet)
    requires n <= |chain|
    ensures Count(chain[..n], wallet) <= Count(chain, wallet)
  {
    assert chain == chain[..n] + chain[n..];
    CountConcat(chain[..n], chain[n..], wallet);
  }
}
