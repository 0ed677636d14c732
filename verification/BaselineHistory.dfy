/**
 * What baseline production does with every opportunity and every receipt, said on the histories: which receipts are
 * counted, where an opportunity's offer goes, and which end an opportunity comes to.
 */
module BaselineHistory {
  import opened Common
  import Bootstrap
  import opened Baseline
  import opened BaselineProofs

  // ---------------------------------------------------------------------------
  // What one reconcile does to an opportunity

  /** The committed offer was found on the node it is for. */
  ghost predicate Seen(b: Ledger, xs: seq<Execution>)
  {
    && b.stage == Offered && b.offer.Some?
    && exists i :: 0 <= i < |xs| && xs[i].participant == b.offer.value.target && xs[i].offer == b.offer
  }

  predicate Calm(f: Findings)
  {
    !f.refused && !f.adopted && !f.paused
  }

  predicate Waiting(b: Ledger, now: int)
  {
    b.next.Some? && now < b.next.value
  }

  predicate Due(b: Ledger, now: int)
  {
    b.next.Some? && b.next.value <= now
  }

  predicate HasBootstrap(xs: seq<Execution>)
  {
    exists i :: 0 <= i < |xs| && xs[i].receipt.ForBootstrap?
  }

  /** Reading executions settles at most the offer found on its node, and nothing else of the opportunity. */
  lemma {:induction false} ReadingSettles(plan: Bootstrap.Plan, b: Ledger, xs: seq<Execution>)
    ensures var r := AccountAll(plan, b, xs);
      && r.next == b.next && r.offer == b.offer && r.selected == b.selected && r.opportunities == b.opportunities
      && r.skipped == b.skipped && r.unassigned == b.unassigned && b.sequence <= r.sequence
      && (!HasBootstrap(xs) ==> r.sequence == b.sequence)
      && r.stage == (if Seen(b, xs) then Assigned else b.stage)
      && r.assignedCount == b.assignedCount + (if Seen(b, xs) then 1 else 0)
  {
    if xs != [] {
      var n := |xs| - 1;
      var front, x := xs[..n], xs[n];
      ReadingSettles(plan, b, front);
      SeenGrows(b, xs);
      assert !HasBootstrap(xs) ==> !HasBootstrap(front) && !x.receipt.ForBootstrap?;
    }
  }

  lemma SeenGrows(b: Ledger, xs: seq<Execution>)
    requires xs != []
    ensures var n := |xs| - 1;
      Seen(b, xs) <==>
        (Seen(b, xs[..n]) ||
         (b.stage == Offered && b.offer.Some? && xs[n].participant == b.offer.value.target && xs[n].offer == b.offer))
  {
    var n := |xs| - 1;
    if Seen(b, xs) {
      var i :| 0 <= i < |xs| && xs[i].participant == b.offer.value.target && xs[i].offer == b.offer;
      assert i < n ==> xs[..n][i] == xs[i];
    }
    if Seen(b, xs[..n]) {
      var i :| 0 <= i < n && xs[..n][i].participant == b.offer.value.target && xs[..n][i].offer == b.offer;
      assert xs[i] == xs[..n][i];
    }
  }

  /**
   * Which end an open opportunity comes to. Assigned: its offer was found on its node, or was assigned to a ready
   * target in time. Skipped: its target was not ready in time. Unassigned: production was refused, paused or
   * adopted anew, or its time ran out. Otherwise it stays open.
   */
  lemma FatesAreExact(plan: Bootstrap.Plan, b: Ledger, f: Findings)
    ensures var r := Reconciled(plan, b, f); var seen := Seen(b, f.executions);
      var open := b.stage == Selected || b.stage == Offered;
      && r.assignedCount == b.assignedCount +
           (if seen || (b.stage == Offered && Calm(f) && Waiting(b, f.now) && f.targetReady && b.selected.Some? &&
                        b.offer.Some? && b.offer.value.number == r.sequence) then 1 else 0)
      && r.skipped == b.skipped +
           (if open && !seen && Calm(f) && Waiting(b, f.now) && !(f.targetReady && b.selected.Some?) then 1 else 0)
      && r.unassigned == b.unassigned + (if open && !seen && (!Calm(f) || Due(b, f.now)) then 1 else 0)
      && (r.assignedCount == b.assignedCount && r.skipped == b.skipped && r.unassigned == b.unassigned && open ==>
            r.stage == Selected || r.stage == Offered)
  {
    ReadingSettles(plan, b, f.executions);
  }

  /** A new opportunity is opened exactly when the last one is over, the cadence is due and a target is drawn. */
  ghost predicate Opening(plan: Bootstrap.Plan, b: Ledger, f: Findings)
  {
    && (b.stage == Selected || b.stage == Offered ==> Seen(b, f.executions))
    && Calm(f) && Due(b, f.now) && f.interval.Some? && f.drawn.Some?
    && AccountAll(plan, b, f.executions).sequence != 0x7fff_ffff_ffff_ffff && b.opportunities != 0x7fff_ffff_ffff_ffff
  }

  /** It takes the next number and the drawn target, and leaves no older offer standing. */
  lemma OpeningIsExact(plan: Bootstrap.Plan, b: Ledger, f: Findings)
    ensures var r := Reconciled(plan, b, f); var n := AccountAll(plan, b, f.executions).sequence;
      if Opening(plan, b, f) then
        && r.opportunities == b.opportunities + 1 && r.sequence == n + 1 && r.selected == f.drawn && r.stage == Selected
        && r.next == Some(f.now + f.interval.value) && r.offer.None?
      else
        && r.opportunities == b.opportunities && r.sequence == n
        && (r.selected == b.selected || r.selected.None?) && (r.stage == Selected ==> b.stage == Selected)
  {
    ReadingSettles(plan, b, f.executions);
  }

  /** The cadence starts with the first calm reconcile, moves only when an opportunity opens, and stops with production. */
  lemma CadenceIsExact(plan: Bootstrap.Plan, b: Ledger, f: Findings)
    ensures Reconciled(plan, b, f).next ==
      if !Calm(f) then None
      else if Opening(plan, b, f) || (b.next.None? && f.interval.Some?) then Some(f.now + f.interval.value)
      else b.next
  {
    ReadingSettles(plan, b, f.executions);
  }

  /** A selected opportunity becomes an offer to its own target, under its own number, until the next one is due. */
  lemma CommitIsExact(plan: Bootstrap.Plan, b: Ledger, f: Findings)
    ensures var r := Reconciled(plan, b, f);
      (b.stage == Selected && r.stage == Offered) <==>
        b.stage == Selected && Calm(f) && Waiting(b, f.now) && f.targetReady && b.selected.Some?
    ensures var r := Reconciled(plan, b, f);
      && (b.stage == Selected && r.stage == Offered ==>
            r.offer == Some(Offer(AccountAll(plan, b, f.executions).sequence, b.selected.value, b.next.value)))
      && (b.stage != Selected && r.offer.Some? ==> r.offer == b.offer)
      && (r.stage == Offered ==> b.stage == Selected || b.stage == Offered)
  {
    ReadingSettles(plan, b, f.executions);
  }

  // ---------------------------------------------------------------------------
  // Where offers go, over runs

  /** The offer is for this opportunity: its target, its deadline and, unless late receipts raised it, its number. */
  predicate Serves(exact: bool, op: Opportunity, o: Offer)
  {
    op.target == o.target && op.expires == o.expires && op.number <= o.number && (exact ==> op.number == o.number)
  }

  /** Opportunity k is the one this offer was committed for, and no later one. */
  predicate ServedBy(exact: bool, draws: seq<Opportunity>, k: int, o: Offer)
  {
    0 <= k < |draws| && Serves(exact, draws[k], o) && (k + 1 < |draws| ==> o.number < draws[k + 1].number)
  }

  ghost predicate Served(exact: bool, draws: seq<Opportunity>, o: Offer)
  {
    exists k :: ServedBy(exact, draws, k, o)
  }

  ghost predicate Drawn(exact: bool, first: int, b: Ledger, draws: seq<Opportunity>, committed: seq<Offer>)
  {
    && first <= b.sequence && |draws| == b.opportunities
    && (forall i, j :: 0 <= i < j < |draws| ==> draws[i].number < draws[j].number)
    && (forall i :: 0 <= i < |draws| ==> first < draws[i].number <= b.sequence)
    && (b.stage == Selected ==>
          && draws != [] && b.selected == Some(draws[|draws| - 1].target) && b.next == Some(draws[|draws| - 1].expires)
          && (exact ==> draws[|draws| - 1].number == b.sequence))
    && (forall i :: 0 <= i < |committed| ==> committed[i].number <= b.sequence)
    && (forall i :: 0 <= i < |committed| ==> Served(exact, draws, committed[i]))
  }

  /** No bootstrap receipt read is numbered above those known when baseline production began. */
  predicate Punctual(first: int, xs: seq<Execution>)
  {
    forall i :: 0 <= i < |xs| && xs[i].receipt.ForBootstrap? ==> xs[i].receipt.bootstrap.number <= first
  }

  lemma {:induction false} PunctualReading(plan: Bootstrap.Plan, b: Ledger, xs: seq<Execution>, first: int)
    requires first <= b.sequence && Punctual(first, xs)
    ensures AccountAll(plan, b, xs).sequence == b.sequence
  {
    if xs != [] {
      var n := |xs| - 1;
      forall i | 0 <= i < n && xs[..n][i].receipt.ForBootstrap?
        ensures xs[..n][i].receipt.bootstrap.number <= first
      {
        assert xs[..n][i] == xs[i];
      }
      PunctualReading(plan, b, xs[..n], first);
    }
  }

  ghost predicate OnTime(exact: bool, first: int, e: Event)
  {
    exact && e.Reconciles? ==> Punctual(first, e.findings.executions)
  }

  lemma ServedStays(exact: bool, draws: seq<Opportunity>, more: Opportunity, o: Offer)
    requires Served(exact, draws, o) && o.number < more.number
    ensures Served(exact, draws + [more], o)
  {
    var k :| ServedBy(exact, draws, k, o);
    assert ServedBy(exact, draws + [more], k, o);
  }

  lemma OpeningKeepsDrawn(exact: bool, first: int, b: Ledger, r: Ledger, draws: seq<Opportunity>, committed: seq<Offer>, op: Opportunity)
    requires Drawn(exact, first, b, draws, committed)
    requires r.opportunities == b.opportunities + 1 && b.sequence < r.sequence == op.number
    requires r.selected == Some(op.target) && r.next == Some(op.expires)
    ensures Drawn(exact, first, r, draws + [op], committed)
  {
    forall i | 0 <= i < |committed|
      ensures Served(exact, draws + [op], committed[i])
    {
      assert Served(exact, draws, committed[i]);
      ServedStays(exact, draws, op, committed[i]);
    }
  }

  lemma CommitKeepsDrawn(exact: bool, first: int, b: Ledger, r: Ledger, draws: seq<Opportunity>, committed: seq<Offer>, n: int)
    requires Drawn(exact, first, b, draws, committed) && b.stage == Selected
    requires r.opportunities == b.opportunities && r.stage != Selected && b.sequence <= n == r.sequence && (exact ==> n == b.sequence)
    ensures Drawn(exact, first, r, draws, committed + [Offer(n, b.selected.value, b.next.value)])
  {
    var o := Offer(n, b.selected.value, b.next.value);
    assert ServedBy(exact, draws, |draws| - 1, o);
    forall i | 0 <= i < |committed + [o]|
      ensures Served(exact, draws, (committed + [o])[i])
    {
      if i < |committed| {
        assert (committed + [o])[i] == committed[i];
      }
    }
  }

  lemma QuietKeepsDrawn(exact: bool, first: int, b: Ledger, r: Ledger, draws: seq<Opportunity>, committed: seq<Offer>)
    requires Drawn(exact, first, b, draws, committed)
    requires r.opportunities == b.opportunities && b.sequence <= r.sequence && (exact ==> r.sequence == b.sequence)
    requires r.stage == Selected ==> b.stage == Selected && r.selected == b.selected && r.next == b.next
    ensures Drawn(exact, first, r, draws, committed)
  {
  }

  lemma ReconcileKeepsDrawn(exact: bool, first: int, plan: Bootstrap.Plan, w: World, f: Findings)
    requires Drawn(exact, first, w.ledger, w.draws, w.committed) && (exact ==> Punctual(first, f.executions))
    ensures var t := Apply(plan, w, Reconciles(f)); Drawn(exact, first, t.ledger, t.draws, t.committed)
  {
    var b, r, n := w.ledger, Reconciled(plan, w.ledger, f), AccountAll(plan, w.ledger, f.executions).sequence;
    OpeningIsExact(plan, b, f);
    CommitIsExact(plan, b, f);
    ReadingSettles(plan, b, f.executions);
    if exact {
      PunctualReading(plan, b, f.executions, first);
    }
    CommitsAre(plan, b, f);
    if Opening(plan, b, f) {
      OpeningKeepsDrawn(exact, first, b, r, w.draws, w.committed, Opportunity(r.sequence, f.drawn.value, f.now + f.interval.value));
      assert w.committed + [] == w.committed;
    } else if b.stage == Selected && r.stage == Offered {
      CommitKeepsDrawn(exact, first, b, r, w.draws, w.committed, n);
      assert w.draws + [] == w.draws;
    } else {
      SelectedStays(plan, b, f);
      QuietKeepsDrawn(exact, first, b, r, w.draws, w.committed);
      assert w.draws + [] == w.draws && w.committed + [] == w.committed;
    }
  }

  lemma CommitsAre(plan: Bootstrap.Plan, b: Ledger, f: Findings)
    ensures var r := Reconciled(plan, b, f);
      && (b.stage == Selected && r.stage == Offered ==> r.offer.Some?)
      && Commits(plan, b, f) == (if b.stage == Selected && r.stage == Offered then [r.offer.value] else [])
  {
    ReadingSettles(plan, b, f.executions);
    CommitIsExact(plan, b, f);
  }

  lemma SelectedStays(plan: Bootstrap.Plan, b: Ledger, f: Findings)
    requires (b.stage == Selected ==> b.next.Some?) && !Opening(plan, b, f)
    ensures var r := Reconciled(plan, b, f); r.stage == Selected ==> r.selected == b.selected && r.next == b.next
  {
    ReadingSettles(plan, b, f.executions);
  }

  lemma {:induction false} RunKeepsDrawn(
    exact: bool, first: int, plan: Bootstrap.Plan, home: Home, w: World, events: seq<Event>)
    requires Run(plan, home, w, events) && Drawn(exact, first, w.ledger, w.draws, w.committed)
    requires forall i :: 0 <= i < |events| ==> OnTime(exact, first, events[i])
    ensures var t := After(plan, home, w, events); Drawn(exact, first, t.ledger, t.draws, t.committed)
    decreases |events|
  {
    if events != [] {
      if events[0].Reconciles? {
        assert OnTime(exact, first, events[0]);
        ReconcileKeepsDrawn(exact, first, plan, w, events[0].findings);
      } else {
        QuietKeepsDrawn(exact, first, w.ledger, Withdrawn(w.ledger), w.draws, w.committed);
      }
      forall i | 0 <= i < |events[1..]|
        ensures OnTime(exact, first, events[1..][i])
      {
        assert events[1..][i] == events[i + 1];
      }
      RunKeepsDrawn(exact, first, plan, home, Apply(plan, w, events[0]), events[1..]);
    }
  }

  /**
   * Over every run each committed offer goes to the target drawn for one opportunity, until that opportunity's own
   * deadline, numbered from that opportunity's number on and below the next one's; and under exactly that number
   * when no late bootstrap receipt turns up. Different opportunities have different, ascending numbers.
   */
  lemma OffersGoWhereDrawn(
    exact: bool, plan: Bootstrap.Plan, home: Home, lastAccounted: int, offer: Option<int>, funded: seq<Bootstrap.FundingCount>,
    events: seq<Event>, i: nat)
    requires Run(plan, home, Origin(lastAccounted, offer, funded), events)
    requires forall j :: 0 <= j < |events| ==>
      OnTime(exact, Origin(lastAccounted, offer, funded).ledger.sequence, events[j])
    requires i < |After(plan, home, Origin(lastAccounted, offer, funded), events).committed|
    ensures var t := After(plan, home, Origin(lastAccounted, offer, funded), events); var o := t.committed[i];
      && |t.draws| == t.ledger.opportunities
      && (forall j, k :: 0 <= j < k < |t.draws| ==> t.draws[j].number < t.draws[k].number)
      && exists k :: 0 <= k < |t.draws| && t.draws[k].target == o.target && t.draws[k].expires == o.expires &&
           t.draws[k].number <= o.number && (exact ==> t.draws[k].number == o.number) &&
           (k + 1 < |t.draws| ==> o.number < t.draws[k + 1].number)
  {
    var w := Origin(lastAccounted, offer, funded);
    RunKeepsDrawn(exact, w.ledger.sequence, plan, home, w, events);
    var t := After(plan, home, w, events);
    assert Served(exact, t.draws, t.committed[i]);
    var k :| ServedBy(exact, t.draws, k, t.committed[i]);
    assert t.draws[k].target == t.committed[i].target;
  }

  /** Baseline numbers never meet bootstrap numbers: all of them lie above every bootstrap number known at the start. */
  lemma NumbersStartAfterBootstrap(
    plan: Bootstrap.Plan, home: Home, lastAccounted: int, offer: Option<int>, funded: seq<Bootstrap.FundingCount>,
    events: seq<Event>, i: nat)
    requires Run(plan, home, Origin(lastAccounted, offer, funded), events)
    requires i < |After(plan, home, Origin(lastAccounted, offer, funded), events).draws|
    ensures var n := After(plan, home, Origin(lastAccounted, offer, funded), events).draws[i].number;
      lastAccounted < n && (offer.Some? ==> offer.value < n)
  {
    var w := Origin(lastAccounted, offer, funded);
    RunKeepsDrawn(false, w.ledger.sequence, plan, home, w, events);
  }

  lemma {:induction false} ReadingKeepsUp(plan: Bootstrap.Plan, b: Ledger, xs: seq<Execution>)
    requires b.lastAccounted <= b.sequence
    ensures var r := AccountAll(plan, b, xs); b.lastAccounted <= r.lastAccounted <= r.sequence
  {
    if xs != [] {
      ReadingKeepsUp(plan, b, xs[..|xs| - 1]);
    }
  }

  /** The sequence never falls behind a credited bootstrap number, however late its receipt is read. */
  lemma {:induction false} SequenceKeepsUp(plan: Bootstrap.Plan, home: Home, w: World, events: seq<Event>)
    requires Run(plan, home, w, events) && w.ledger.lastAccounted <= w.ledger.sequence
    ensures var t := After(plan, home, w, events).ledger;
      w.ledger.lastAccounted <= t.lastAccounted <= t.sequence && w.ledger.sequence <= t.sequence
    decreases |events|
  {
    if events != [] {
      if events[0].Reconciles? {
        var f := events[0].findings;
        ReadingKeepsUp(plan, w.ledger, f.executions);
        ReadingSettles(plan, w.ledger, f.executions);
        OpeningIsExact(plan, w.ledger, f);
        CursorStays(plan, w.ledger, f);
      }
      SequenceKeepsUp(plan, home, Apply(plan, w, events[0]), events[1..]);
    }
  }

  lemma CursorStays(plan: Bootstrap.Plan, b: Ledger, f: Findings)
    ensures Reconciled(plan, b, f).lastAccounted == AccountAll(plan, b, f.executions).lastAccounted
    ensures Reconciled(plan, b, f).funded == AccountAll(plan, b, f.executions).funded
  {
  }

  // ---------------------------------------------------------------------------
  // Which receipts are counted, over runs

  /** The execution records whose receipts were acknowledged. */
  ghost function Nodes(home: Home, acked: seq<Offer>): (r: set<Uid>)
  {
    set i | 0 <= i < |acked| :: home(acked[i].target)
  }

  /**
   * A read receipt is counted exactly when it is for that node's own offer, is the node's latest, lies above every
   * number acknowledged for the node, and there is room for the count and for the node's cursor.
   */
  ghost predicate Counts(home: Home, acked: seq<Offer>, x: Execution)
  {
    && x.receipt.ForBaseline?
    && var o := x.receipt.baseline;
       && o.target == x.participant && o.number == x.completed && 0 < o.number
       && (forall i :: 0 <= i < |acked| && home(acked[i].target) == x.uid ==> acked[i].number < o.number)
       && |acked| != 0x7fff_ffff_ffff_ffff
       && (x.uid in Nodes(home, acked) || |Nodes(home, acked)| < 1000)
  }

  /** The receipts counted from a sequence of reads, in order. */
  ghost function Fresh(home: Home, acked: seq<Offer>, xs: seq<Execution>): (r: seq<Offer>)
  {
    if xs == [] then []
    else
      var n := |xs| - 1;
      var sofar := Fresh(home, acked, xs[..n]);
      sofar + (if Counts(home, acked + sofar, xs[n]) then [xs[n].receipt.baseline] else [])
  }

  /** A cursor stands at the highest number acknowledged for its node, one cursor for each such node. */
  ghost predicate CursorsStand(home: Home, receipts: seq<Cursor>, acked: seq<Offer>)
  {
    && (forall i, j :: 0 <= i < j < |receipts| ==> receipts[i].execution != receipts[j].execution)
    && |receipts| == |Nodes(home, acked)|
    && (forall uid :: Stands(home, receipts, acked, uid))
  }

  ghost predicate Stands(home: Home, receipts: seq<Cursor>, acked: seq<Offer>, uid: Uid)
  {
    var top := Accounted(receipts, uid);
    && (Find(receipts, uid) < 0 <==> uid !in Nodes(home, acked))
    && (Find(receipts, uid) < 0 ==> top == 0)
    && (Find(receipts, uid) >= 0 ==> 0 < top && exists i :: 0 <= i < |acked| && home(acked[i].target) == uid && acked[i].number == top)
    && (forall i :: 0 <= i < |acked| && home(acked[i].target) == uid ==> acked[i].number <= top)
  }

  /** The cursor test is the test on the history. */
  lemma CountsIsAcknowledges(home: Home, b: Ledger, acked: seq<Offer>, x: Execution)
    requires CursorsStand(home, b.receipts, acked) && b.acknowledged == |acked|
    requires x.receipt.ForBaseline? && x.receipt.baseline.target == x.participant ==> x.receipt.baseline.number <= b.sequence
    ensures Acknowledges(b, x) <==> Counts(home, acked, x)
  {
    assert Stands(home, b.receipts, acked, x.uid);
  }

  lemma NodesGrow(home: Home, acked: seq<Offer>, o: Offer)
    ensures Nodes(home, acked + [o]) == Nodes(home, acked) + {home(o.target)}
  {
    var all := acked + [o];
    forall u | u in Nodes(home, acked)
      ensures u in Nodes(home, all)
    {
      var i :| 0 <= i < |acked| && home(acked[i].target) == u;
      assert all[i] == acked[i];
    }
    assert all[|acked|] == o;
  }

  lemma {:induction false} FindAfterAdvance(receipts: seq<Cursor>, uid: Uid, number: int, other: Uid)
    ensures Find(Advance(receipts, uid, number), other) < 0 <==> other != uid && Find(receipts, other) < 0
  {
    var after := Advance(receipts, uid, number);
    var i := Find(receipts, uid);
    if i < 0 {
      assert after[|receipts|] == Cursor(uid, number);
      assert forall k :: 0 <= k < |receipts| ==> after[k] == receipts[k];
    } else {
      assert after[i] == Cursor(uid, number);
      assert forall k :: 0 <= k < |receipts| && k != i ==> after[k] == receipts[k];
    }
    var j, j' := Find(receipts, other), Find(after, other);
    assert 0 <= j ==> after[j].execution == other || j == i;
    assert 0 <= j' && other != uid ==> j' < |receipts| && receipts[j'].execution == other;
  }

  lemma AdvanceStands(home: Home, receipts: seq<Cursor>, acked: seq<Offer>, o: Offer, uid: Uid)
    requires Stands(home, receipts, acked, uid) && (home(o.target) == uid ==> Accounted(receipts, uid) < o.number && 0 < o.number)
    ensures Stands(home, Advance(receipts, home(o.target), o.number), acked + [o], uid)
  {
    var node, all := home(o.target), acked + [o];
    AdvanceRaises(receipts, node, o.number, uid);
    FindAfterAdvance(receipts, node, o.number, uid);
    NodesGrow(home, acked, o);
    assert all[|acked|] == o;
    if uid != node && Find(receipts, uid) >= 0 {
      var i :| 0 <= i < |acked| && home(acked[i].target) == uid && acked[i].number == Accounted(receipts, uid);
      assert all[i] == acked[i];
    }
  }

  lemma AdvanceKeepsCursors(home: Home, receipts: seq<Cursor>, acked: seq<Offer>, o: Offer)
    requires CursorsStand(home, receipts, acked) && Accounted(receipts, home(o.target)) < o.number && 0 < o.number
    ensures CursorsStand(home, Advance(receipts, home(o.target), o.number), acked + [o])
  {
    var node := home(o.target);
    assert Stands(home, receipts, acked, node);
    forall uid: Uid
      ensures Stands(home, Advance(receipts, node, o.number), acked + [o], uid)
    {
      assert Stands(home, receipts, acked, uid);
      AdvanceStands(home, receipts, acked, o, uid);
    }
    NodesGrow(home, acked, o);
    if Find(receipts, node) >= 0 {
      assert Nodes(home, acked) + {node} == Nodes(home, acked);
    }
  }

  lemma {:induction false} AcksAreFresh(
    plan: Bootstrap.Plan, home: Home, b: Ledger, xs: seq<Execution>, committed: seq<Offer>, acked: seq<Offer>)
    requires Honest(home, committed, xs)
    requires Conserved(b) && Numbered(b, committed) && Acked(home, b.receipts, b.acknowledged, committed, acked)
    requires CursorsStand(home, b.receipts, acked)
    ensures Acks(plan, b, xs) == Fresh(home, acked, xs)
    ensures CursorsStand(home, AccountAll(plan, b, xs).receipts, acked + Acks(plan, b, xs))
  {
    if xs == [] {
      assert acked + [] == acked;
    } else {
      var n := |xs| - 1;
      var front, x := xs[..n], xs[n];
      AcksAreFresh(plan, home, b, front, committed, acked);
      AccountingKeeps(plan, home, b, front, committed, acked);
      var mid := AccountAll(plan, b, front);
      NoticedKeeps(plan, mid, x, committed);
      OneMore(plan, home, mid, x, committed, acked + Acks(plan, b, front));
      var added := if Counts(home, acked + Acks(plan, b, front), x) then [x.receipt.baseline] else [];
      assert (acked + Acks(plan, b, front)) + added == acked + (Acks(plan, b, front) + added);
    }
  }

  /** One more execution read. */
  lemma OneMore(plan: Bootstrap.Plan, home: Home, mid: Ledger, x: Execution, committed: seq<Offer>, acked: seq<Offer>)
    requires Numbered(Noticed(Funded(plan, mid, x), x), committed) && mid.acknowledged == |acked|
    requires x.uid == home(x.participant)
    requires x.receipt.ForBaseline? && x.receipt.baseline.target == x.participant ==> x.receipt.baseline in committed
    requires CursorsStand(home, mid.receipts, acked)
    ensures var noticed := Noticed(Funded(plan, mid, x), x);
      && (Acknowledges(noticed, x) <==> Counts(home, acked, x))
      && CursorsStand(home, Counted(noticed, x).receipts,
           acked + (if Acknowledges(noticed, x) then [x.receipt.baseline] else []))
  {
    var noticed := Noticed(Funded(plan, mid, x), x);
    assert noticed.receipts == mid.receipts && noticed.acknowledged == mid.acknowledged;
    CountsIsAcknowledges(home, noticed, acked, x);
    if Acknowledges(noticed, x) {
      assert Stands(home, mid.receipts, acked, x.uid);
      AdvanceKeepsCursors(home, mid.receipts, acked, x.receipt.baseline);
    } else {
      assert acked + [] == acked;
    }
  }

  ghost predicate Books(home: Home, w: World)
  {
    Inv(home, w) && CursorsStand(home, w.ledger.receipts, w.acked)
  }

  lemma ReconcileBooks(plan: Bootstrap.Plan, home: Home, w: World, f: Findings)
    requires Books(home, w) && Honest(home, w.committed, f.executions)
    ensures var t := Apply(plan, w, Reconciles(f)); Books(home, t) && t.acked == w.acked + Fresh(home, w.acked, f.executions)
  {
    ReconcileKeeps(plan, home, w, f);
    AcksAreFresh(plan, home, w.ledger, f.executions, w.committed, w.acked);
    ReceiptsStay(plan, w.ledger, f);
  }

  lemma ReceiptsStay(plan: Bootstrap.Plan, b: Ledger, f: Findings)
    ensures Reconciled(plan, b, f).receipts == AccountAll(plan, b, f.executions).receipts
  {
  }

  lemma {:induction false} RunBooks(plan: Bootstrap.Plan, home: Home, w: World, events: seq<Event>)
    requires Books(home, w) && Run(plan, home, w, events)
    ensures Books(home, After(plan, home, w, events))
    decreases |events|
  {
    if events != [] {
      match events[0] {
        case Reconciles(f) => ReconcileBooks(plan, home, w, f);
        case Retimes => WithdrawnKeeps(w.ledger, w.committed);
      }
      RunBooks(plan, home, Apply(plan, w, events[0]), events[1..]);
    }
  }

  lemma OriginBooks(home: Home, lastAccounted: int, offer: Option<int>, funded: seq<Bootstrap.FundingCount>)
    ensures Books(home, Origin(lastAccounted, offer, funded))
  {
    assert Nodes(home, []) == {};
    forall uid: Uid
      ensures Stands(home, [], [], uid)
    {
    }
  }

  /**
   * After any run, a reconcile acknowledges exactly the receipts that count: the counter rises by each read receipt
   * for a node's own offer that lies above everything acknowledged for that node, once.
   */
  lemma AcknowledgedExactly(
    plan: Bootstrap.Plan, home: Home, lastAccounted: int, offer: Option<int>, funded: seq<Bootstrap.FundingCount>,
    events: seq<Event>, f: Findings)
    requires Run(plan, home, Origin(lastAccounted, offer, funded), events)
    requires Honest(home, After(plan, home, Origin(lastAccounted, offer, funded), events).committed, f.executions)
    ensures var w := After(plan, home, Origin(lastAccounted, offer, funded), events);
      var t := Apply(plan, w, Reconciles(f));
      && t.acked == w.acked + Fresh(home, w.acked, f.executions)
      && t.ledger.acknowledged == w.ledger.acknowledged + |Fresh(home, w.acked, f.executions)|
      && |t.ledger.receipts| == |Nodes(home, t.acked)|
  {
    var w := Origin(lastAccounted, offer, funded);
    OriginBooks(home, lastAccounted, offer, funded);
    RunBooks(plan, home, w, events);
    ReconcileBooks(plan, home, After(plan, home, w, events), f);
  }

  /** Acknowledged, or overtaken by a later acknowledgement of the same node. */
  ghost predicate Settled(home: Home, acked: seq<Offer>, x: Execution)
    requires x.receipt.ForBaseline?
  {
    exists i :: 0 <= i < |acked| && home(acked[i].target) == x.uid && x.receipt.baseline.number <= acked[i].number
  }

  lemma SettledStays(home: Home, acked: seq<Offer>, more: seq<Offer>, x: Execution)
    requires x.receipt.ForBaseline? && Settled(home, acked, x)
    ensures Settled(home, acked + more, x)
  {
    var i :| 0 <= i < |acked| && home(acked[i].target) == x.uid && x.receipt.baseline.number <= acked[i].number;
    assert (acked + more)[i] == acked[i];
  }

  lemma NodesShrink(home: Home, acked: seq<Offer>, more: seq<Offer>)
    ensures |Nodes(home, acked)| <= |Nodes(home, acked + more)|
  {
    forall u | u in Nodes(home, acked)
      ensures u in Nodes(home, acked + more)
    {
      var i :| 0 <= i < |acked| && home(acked[i].target) == u;
      assert (acked + more)[i] == acked[i];
    }
    Subset(Nodes(home, acked), Nodes(home, acked + more));
  }

  /** With room to spare, every receipt read for a node's own offer is settled. */
  lemma {:induction false} FreshSettles(home: Home, acked: seq<Offer>, xs: seq<Execution>, k: nat)
    requires k < |xs| && xs[k].receipt.ForBaseline? && xs[k].uid == home(xs[k].participant)
    requires var o := xs[k].receipt.baseline; o.target == xs[k].participant && o.number == xs[k].completed && 0 < o.number
    requires |acked + Fresh(home, acked, xs)| < 0x7fff_ffff_ffff_ffff
    requires |Nodes(home, acked + Fresh(home, acked, xs))| < 1000
    ensures Settled(home, acked + Fresh(home, acked, xs), xs[k])
  {
    var n := |xs| - 1;
    var sofar := Fresh(home, acked, xs[..n]);
    var added := if Counts(home, acked + sofar, xs[n]) then [xs[n].receipt.baseline] else [];
    assert acked + Fresh(home, acked, xs) == (acked + sofar) + added;
    NodesShrink(home, acked + sofar, added);
    if k < n {
      FreshSettles(home, acked, xs[..n], k);
      SettledStays(home, acked + sofar, added, xs[k]);
    } else if added != [] {
      assert ((acked + sofar) + added)[|acked + sofar|] == xs[n].receipt.baseline;
    } else {
      var i :| 0 <= i < |acked + sofar| && home((acked + sofar)[i].target) == xs[n].uid &&
        xs[n].receipt.baseline.number <= (acked + sofar)[i].number;
      assert Settled(home, acked + sofar, xs[n]);
      SettledStays(home, acked + sofar, added, xs[n]);
    }
  }

  /**
   * After any run, a reconcile that ends with fewer than 1000 cursors and room in the counter leaves no read receipt
   * behind: each one for its node's own offer is acknowledged, or lies at or below a number acknowledged for the node.
   */
  lemma ReadReceiptsAreAcknowledged(
    plan: Bootstrap.Plan, home: Home, lastAccounted: int, offer: Option<int>, funded: seq<Bootstrap.FundingCount>,
    events: seq<Event>, f: Findings, k: nat)
    requires 0 <= lastAccounted && Run(plan, home, Origin(lastAccounted, offer, funded), events)
    requires Honest(home, After(plan, home, Origin(lastAccounted, offer, funded), events).committed, f.executions)
    requires k < |f.executions| && f.executions[k].receipt.ForBaseline?
    requires var x := f.executions[k]; x.receipt.baseline.target == x.participant && x.receipt.baseline.number == x.completed
    requires var t := Apply(plan, After(plan, home, Origin(lastAccounted, offer, funded), events), Reconciles(f));
      |t.ledger.receipts| < 1000 && t.ledger.acknowledged < 0x7fff_ffff_ffff_ffff
    ensures var t := Apply(plan, After(plan, home, Origin(lastAccounted, offer, funded), events), Reconciles(f));
      Settled(home, t.acked, f.executions[k])
  {
    var o := Origin(lastAccounted, offer, funded);
    var w := After(plan, home, o, events);
    AcknowledgedExactly(plan, home, lastAccounted, offer, funded, events, f);
    OriginBooks(home, lastAccounted, offer, funded);
    RunBooks(plan, home, o, events);
    ReconcileBooks(plan, home, w, f);
    CommittedIsPositive(plan, home, lastAccounted, offer, funded, events, f.executions[k].receipt.baseline);
    FreshSettles(home, w.acked, f.executions, k);
  }

  lemma CommittedIsPositive(
    plan: Bootstrap.Plan, home: Home, lastAccounted: int, offer: Option<int>, funded: seq<Bootstrap.FundingCount>,
    events: seq<Event>, o: Offer)
    requires 0 <= lastAccounted && Run(plan, home, Origin(lastAccounted, offer, funded), events)
    requires o in After(plan, home, Origin(lastAccounted, offer, funded), events).committed
    ensures 0 < o.number
  {
    var w := Origin(lastAccounted, offer, funded);
    var t := After(plan, home, w, events);
    RunKeepsDrawn(false, w.ledger.sequence, plan, home, w, events);
    var i :| 0 <= i < |t.committed| && t.committed[i] == o;
    assert Served(false, t.draws, t.committed[i]);
    var k :| ServedBy(false, t.draws, k, t.committed[i]);
  }
}
