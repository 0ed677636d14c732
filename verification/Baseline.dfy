/**
 * Ongoing block production: one durable weighted opportunity at a time, moved through its stages by reconciles
 * that may crash between any two writes, and receipts counted from execution records that may be read stale,
 * repeatedly or in any order.
 */
module Baseline {
  import opened Common
  import Bootstrap

  datatype Stage = NoStage | Selected | Offered | Assigned | Skipped | Unassigned

  /** A committed opportunity: the sequence number it carries and the one node it may be sent to. */
  datatype Offer = Offer(number: int, target: Uid, expires: int)

  datatype Cursor = Cursor(execution: Uid, offer: int)

  const MAX_INT64 := 0x7fff_ffff_ffff_ffff
  const MAX_CURSORS := 1000

  /** The part of the initialization status that baseline production keeps. */
  datatype Ledger = Ledger(
    sequence: int,
    stage: Stage,
    selected: Option<Uid>,
    opportunities: int,
    assignedCount: int,
    skipped: int,
    unassigned: int,
    acknowledged: int,
    receipts: seq<Cursor>,
    offer: Option<Offer>,
    next: Option<int>,
    funded: seq<Bootstrap.FundingCount>,
    lastAccounted: int)

  datatype Receipt = NoReceipt | ForBootstrap(bootstrap: Bootstrap.Offer) | ForBaseline(baseline: Offer)

  /** An execution record as one read returned it. */
  datatype Execution = Execution(uid: Uid, participant: Uid, offer: Option<Offer>, receipt: Receipt, completed: int)

  // ---------------------------------------------------------------------------
  // Accounting

  predicate Open(stage: Stage)
  {
    stage.Selected? || stage.Offered?
  }

  /** A bootstrap receipt still outstanding is credited; the sequence never falls behind its number. */
  function Funded(plan: Bootstrap.Plan, b: Ledger, x: Execution): (r: Ledger)
  {
    if !x.receipt.ForBootstrap? then b
    else
      match Bootstrap.AccountOffer(plan, b.funded, b.lastAccounted, x.completed, x.receipt.bootstrap)
      case None => b
      case Some(funded) =>
        var n := x.receipt.bootstrap.number;
        b.(funded := funded, lastAccounted := n, sequence := Max(b.sequence, n))
  }

  /** An offer found on its target was assigned, even if the assigning reconcile never said so. */
  function Noticed(b: Ledger, x: Execution): (r: Ledger)
  {
    if b.stage.Offered? && b.offer.Some? && b.offer.value.target == x.participant && x.offer == b.offer then
      b.(stage := Assigned, assignedCount := b.assignedCount + 1)
    else b
  }

  /** The first cursor of an execution, or its absence. */
  function Find(receipts: seq<Cursor>, uid: Uid): (i: int)
    ensures -1 <= i < |receipts|
    ensures i >= 0 ==> receipts[i].execution == uid
    ensures i < 0 ==> forall k :: 0 <= k < |receipts| ==> receipts[k].execution != uid
  {
    if receipts == [] then -1
    else if receipts[0].execution == uid then 0
    else
      var i := Find(receipts[1..], uid);
      if i < 0 then -1 else i + 1
  }

  function Accounted(receipts: seq<Cursor>, uid: Uid): (n: int)
  {
    var i := Find(receipts, uid);
    if i < 0 then 0 else receipts[i].offer
  }

  /** Whether a read execution carries a baseline receipt that has not been counted. */
  predicate Acknowledges(b: Ledger, x: Execution)
  {
    && x.receipt.ForBaseline?
    && var o := x.receipt.baseline;
       && o.target == x.participant && o.number <= b.sequence && o.number == x.completed
       && Accounted(b.receipts, x.uid) < o.number
       && b.acknowledged != MAX_INT64
       && (Find(b.receipts, x.uid) < 0 ==> |b.receipts| < MAX_CURSORS)
  }

  function Advance(receipts: seq<Cursor>, uid: Uid, number: int): (r: seq<Cursor>)
  {
    var i := Find(receipts, uid);
    if i < 0 then receipts + [Cursor(uid, number)] else receipts[i := Cursor(uid, number)]
  }

  function Counted(b: Ledger, x: Execution): (r: Ledger)
  {
    if Acknowledges(b, x) then
      b.(receipts := Advance(b.receipts, x.uid, x.receipt.baseline.number), acknowledged := b.acknowledged + 1)
    else b
  }

  function AccountOne(plan: Bootstrap.Plan, b: Ledger, x: Execution): (r: Ledger)
  {
    Counted(Noticed(Funded(plan, b, x), x), x)
  }

  /** accountBaselineReceipts over the executions in the order they were read. */
  function AccountAll(plan: Bootstrap.Plan, b: Ledger, xs: seq<Execution>): (r: Ledger)
  {
    if xs == [] then b else AccountOne(plan, AccountAll(plan, b, xs[..|xs| - 1]), xs[|xs| - 1])
  }

  // ---------------------------------------------------------------------------
  // Stages

  /** withdrawBaseline */
  function Withdrawn(b: Ledger): (r: Ledger)
  {
    (if Open(b.stage) then b.(unassigned := b.unassigned + 1, stage := Unassigned) else b).(next := None, offer := None)
  }

  /** What one reconcile found around it. */
  datatype Findings = Findings(
    executions: seq<Execution>,
    refused: bool,
    adopted: bool,
    paused: bool,
    now: int,
    interval: Option<int>,
    targetReady: bool,
    drawn: Option<Uid>)

  /** An opportunity that is selected or offered: it expires, is skipped, committed or assigned. */
  function Progressed(b: Ledger, f: Findings): (r: Ledger)
    requires Open(b.stage) && b.next.Some?
  {
    if b.next.value <= f.now then b.(unassigned := b.unassigned + 1, stage := Unassigned, offer := None)
    else if !f.targetReady || b.selected.None? then b.(skipped := b.skipped + 1, stage := Skipped, offer := None)
    else if b.stage.Selected? then
      b.(offer := Some(Offer(b.sequence, b.selected.value, b.next.value)), stage := Offered)
    else if b.offer.None? || b.offer.value.number != b.sequence then b
    else b.(stage := Assigned, assignedCount := b.assignedCount + 1)
  }

  /** A new opportunity, once the cadence allows it. */
  function Opened(b: Ledger, f: Findings): (r: Ledger)
    requires b.next.Some?
  {
    if f.now < b.next.value || b.sequence == MAX_INT64 || b.opportunities == MAX_INT64
       || f.interval.None? || f.drawn.None? then b
    else
      b.(sequence := b.sequence + 1, opportunities := b.opportunities + 1, selected := f.drawn, stage := Selected,
         next := Some(f.now + f.interval.value), offer := None)
  }

  /** reconcileBaseline, as far as its status write. */
  function Reconciled(plan: Bootstrap.Plan, before: Ledger, f: Findings): (r: Ledger)
  {
    var b := AccountAll(plan, before, f.executions);
    if f.refused then Withdrawn(b)
    else if f.adopted then Withdrawn(b).(selected := None, stage := NoStage)
    else if f.paused then Withdrawn(b)
    else if b.next.None? then
      if f.interval.None? then b else b.(next := Some(f.now + f.interval.value))
    else if Open(b.stage) then Progressed(b, f)
    else Opened(b, f)
  }

  /** The ledger a first baseline reconcile starts from. */
  function Begun(lastAccounted: int, offer: Option<int>, funded: seq<Bootstrap.FundingCount>): (b: Ledger)
  {
    var sequence := if offer.Some? then Max(lastAccounted, offer.value) else lastAccounted;
    Ledger(sequence, NoStage, None, 0, 0, 0, 0, 0, [], None, None, funded, lastAccounted)
  }

  /** The status fields that a reconcile changes in place before writing them. */
  class Status {
    var sequence: int
    var stage: Stage
    var selected: Option<Uid>
    var opportunities: int
    var assignedCount: int
    var skipped: int
    var unassigned: int
    var acknowledged: int
    var receipts: seq<Cursor>
    var offer: Option<Offer>
    var next: Option<int>
    var funded: seq<Bootstrap.FundingCount>
    var lastAccounted: int

    ghost function View(): (b: Ledger)
      reads this
    {
      Ledger(sequence, stage, selected, opportunities, assignedCount, skipped, unassigned, acknowledged,
             receipts, offer, next, funded, lastAccounted)
    }

    constructor (accounted: int, committed: Option<int>, credited: seq<Bootstrap.FundingCount>)
      ensures View() == Begun(accounted, committed, credited)
    {
      sequence := accounted;
      stage, selected, opportunities, assignedCount := NoStage, None, 0, 0;
      skipped, unassigned, acknowledged, receipts := 0, 0, 0, [];
      offer, next, funded, lastAccounted := None, None, credited, accounted;
      new;
      if committed.Some? && committed.value > sequence {
        sequence := committed.value;
      }
    }

    /** The cursor scan of one receipt. */
    method FindCursor(uid: Uid) returns (index: int, accounted: int)
      ensures index == Find(receipts, uid) && accounted == Accounted(receipts, uid)
    {
      index, accounted := -1, 0;
      var i := 0;
      assert receipts[0..] == receipts;
      while i < |receipts|
        invariant 0 <= i <= |receipts| && index == -1 && accounted == 0
        invariant Find(receipts, uid) == if Find(receipts[i..], uid) < 0 then -1 else i + Find(receipts[i..], uid)
      {
        if receipts[i].execution == uid {
          index, accounted := i, receipts[i].offer;
          return;
        }
        assert receipts[i..][1..] == receipts[i + 1..];
        i := i + 1;
      }
    }

    method Fund(plan: Bootstrap.Plan, x: Execution)
      modifies this
      ensures View() == Funded(plan, old(View()), x)
    {
      if x.receipt.ForBootstrap? {
        var credited := Bootstrap.AccountOffer(plan, funded, lastAccounted, x.completed, x.receipt.bootstrap);
        if credited.Some? {
          funded, lastAccounted := credited.value, x.receipt.bootstrap.number;
          sequence := Max(sequence, lastAccounted);
        }
      }
    }

    method Notice(x: Execution)
      modifies this
      ensures View() == Noticed(old(View()), x)
    {
      if stage.Offered? && offer.Some? && offer.value.target == x.participant && x.offer == offer {
        stage := Assigned;
        assignedCount := assignedCount + 1;
      }
    }

    method Count(x: Execution)
      modifies this
      ensures View() == Counted(old(View()), x)
    {
      if !x.receipt.ForBaseline? {
        return;
      }
      var o := x.receipt.baseline;
      if o.target != x.participant || o.number > sequence || o.number != x.completed {
        return;
      }
      var index, accounted := FindCursor(x.uid);
      if o.number <= accounted || acknowledged == MAX_INT64 {
        return;
      }
      if index < 0 {
        if |receipts| >= MAX_CURSORS {
          return;
        }
        receipts := receipts + [Cursor(x.uid, o.number)];
      } else {
        receipts := receipts[index := Cursor(x.uid, o.number)];
      }
      acknowledged := acknowledged + 1;
    }

    method Account(plan: Bootstrap.Plan, x: Execution)
      modifies this
      ensures View() == AccountOne(plan, old(View()), x)
    {
      Fund(plan, x);
      Notice(x);
      Count(x);
    }

    method AccountReceipts(plan: Bootstrap.Plan, xs: seq<Execution>)
      modifies this
      ensures View() == AccountAll(plan, old(View()), xs)
    {
      var i := 0;
      while i < |xs|
        invariant 0 <= i <= |xs| && View() == AccountAll(plan, old(View()), xs[..i])
      {
        assert xs[..i + 1][..i] == xs[..i];
        Account(plan, xs[i]);
        i := i + 1;
      }
      assert xs[..i] == xs;
    }

    method Withdraw()
      modifies this
      ensures View() == Withdrawn(old(View()))
    {
      if stage.Selected? || stage.Offered? {
        unassigned := unassigned + 1;
        stage := Unassigned;
      }
      next, offer := None, None;
    }

    method Reconcile(plan: Bootstrap.Plan, f: Findings)
      modifies this
      ensures View() == Reconciled(plan, old(View()), f)
    {
      AccountReceipts(plan, f.executions);
      if f.refused {
        Withdraw();
        return;
      }
      if f.adopted {
        Withdraw();
        selected, stage := None, NoStage;
        return;
      }
      if f.paused {
        Withdraw();
        return;
      }
      if next.None? {
        if f.interval.Some? {
          next := Some(f.now + f.interval.value);
        }
        return;
      }
      if stage.Selected? || stage.Offered? {
        Progress(f);
      } else {
        Select(f);
      }
    }

    method Progress(f: Findings)
      requires Open(stage) && next.Some?
      modifies this
      ensures View() == Progressed(old(View()), f)
    {
      if f.now >= next.value {
        unassigned := unassigned + 1;
        stage, offer := Unassigned, None;
      } else if !f.targetReady || selected.None? {
        skipped := skipped + 1;
        stage, offer := Skipped, None;
      } else if stage.Selected? {
        offer := Some(Offer(sequence, selected.value, next.value));
        stage := Offered;
      } else if offer.Some? && offer.value.number == sequence {
        stage := Assigned;
        assignedCount := assignedCount + 1;
      }
    }

    method Select(f: Findings)
      requires next.Some?
      modifies this
      ensures View() == Opened(old(View()), f)
    {
      if f.now < next.value || sequence == MAX_INT64 || opportunities == MAX_INT64 || f.interval.None? || f.drawn.None? {
        return;
      }
      sequence, opportunities := sequence + 1, opportunities + 1;
      selected, stage := f.drawn, Selected;
      next, offer := Some(f.now + f.interval.value), None;
    }
  }
}
