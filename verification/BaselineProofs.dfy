/**
 * Every opportunity is accounted for exactly once, and every acknowledged receipt belongs to an opportunity of
 * its own, whatever mixture of stale, repeated and reordered execution reads the reconciles work from.
 */
module BaselineProofs {
  import opened Common
  import Bootstrap
  import opened Baseline

  /** An opportunity as it was opened: its number, the target drawn for it, and when the next one is due. */
  datatype Opportunity = Opportunity(number: int, target: Uid, expires: int)

  /** The stored ledger, with the history of what was opened, committed and counted. */
  datatype World = World(ledger: Ledger, draws: seq<Opportunity>, committed: seq<Offer>, acked: seq<Offer>)

  datatype Event = Reconciles(findings: Findings) | Retimes

  /** One execution record per node, never replaced. */
  type Home = Uid -> Uid

  /** A node's baseline receipts are for offers this ledger committed to that node. */
  ghost predicate Honest(home: Home, committed: seq<Offer>, xs: seq<Execution>)
  {
    forall i :: 0 <= i < |xs| ==>
      && xs[i].uid == home(xs[i].participant)
      && (xs[i].receipt.ForBaseline? && xs[i].receipt.baseline.target == xs[i].participant ==>
            xs[i].receipt.baseline in committed)
  }

  /** The offers a sequence of reads newly acknowledges. */
  function Acks(plan: Bootstrap.Plan, b: Ledger, xs: seq<Execution>): (r: seq<Offer>)
  {
    if xs == [] then []
    else
      var last := |xs| - 1;
      var before := Noticed(Funded(plan, AccountAll(plan, b, xs[..last]), xs[last]), xs[last]);
      Acks(plan, b, xs[..last]) + (if Acknowledges(before, xs[last]) then [xs[last].receipt.baseline] else [])
  }

  /** The offer a reconcile commits, if any. */
  function Commits(plan: Bootstrap.Plan, b: Ledger, f: Findings): (r: seq<Offer>)
  {
    var mid, after := AccountAll(plan, b, f.executions), Reconciled(plan, b, f);
    if mid.stage.Selected? && after.stage.Offered? && after.offer.Some? then [after.offer.value] else []
  }

  /** The opportunity a reconcile opens, if any: the counter rose, for the target and interval it drew. */
  function Opens(plan: Bootstrap.Plan, b: Ledger, f: Findings): (r: seq<Opportunity>)
  {
    var after := Reconciled(plan, b, f);
    if b.opportunities < after.opportunities && f.drawn.Some? && f.interval.Some?
    then [Opportunity(after.sequence, f.drawn.value, f.now + f.interval.value)] else []
  }

  ghost predicate Enabled(home: Home, w: World, e: Event)
  {
    e.Reconciles? ==> Honest(home, w.committed, e.findings.executions)
  }

  function Apply(plan: Bootstrap.Plan, w: World, e: Event): (r: World)
  {
    match e
    case Reconciles(f) =>
      World(Reconciled(plan, w.ledger, f), w.draws + Opens(plan, w.ledger, f), w.committed + Commits(plan, w.ledger, f),
            w.acked + Acks(plan, w.ledger, f.executions))
    case Retimes => w.(ledger := Withdrawn(w.ledger))
  }

  ghost predicate Run(plan: Bootstrap.Plan, home: Home, w: World, events: seq<Event>)
    decreases |events|
  {
    if events == [] then true
    else Enabled(home, w, events[0]) && Run(plan, home, Apply(plan, w, events[0]), events[1..])
  }

  ghost function After(plan: Bootstrap.Plan, home: Home, w: World, events: seq<Event>): (r: World)
    requires Run(plan, home, w, events)
    decreases |events|
  {
    if events == [] then w else After(plan, home, Apply(plan, w, events[0]), events[1..])
  }

  // ---------------------------------------------------------------------------
  // What every step keeps

  /** Every opportunity is assigned, skipped, unassigned, or the open one. */
  ghost predicate Conserved(b: Ledger)
  {
    && 0 <= b.assignedCount && 0 <= b.skipped && 0 <= b.unassigned && b.opportunities <= MAX_INT64
    && b.opportunities == b.assignedCount + b.skipped + b.unassigned + (if Open(b.stage) then 1 else 0)
  }

  /** Committed numbers ascend up to the sequence; a selected opportunity's number is still unused. */
  ghost predicate Numbered(b: Ledger, committed: seq<Offer>)
  {
    && (forall i, j :: 0 <= i < j < |committed| ==> committed[i].number < committed[j].number)
    && (forall i :: 0 <= i < |committed| ==>
          committed[i].number <= b.sequence && (b.stage.Selected? ==> committed[i].number < b.sequence))
    && |committed| + (if b.stage.Selected? then 1 else 0) <= b.opportunities
  }

  /** Every acknowledged offer was committed, once, and lies at or below its node's cursor. */
  ghost predicate Acked(home: Home, receipts: seq<Cursor>, acknowledged: int, committed: seq<Offer>, acked: seq<Offer>)
  {
    && acknowledged == |acked|
    && (forall i, j :: 0 <= i < j < |acked| ==> acked[i] != acked[j])
    && (forall i :: 0 <= i < |acked| ==>
          acked[i] in committed && acked[i].number <= Accounted(receipts, home(acked[i].target)))
  }

  ghost predicate Inv(home: Home, w: World)
  {
    && Conserved(w.ledger)
    && Numbered(w.ledger, w.committed)
    && Acked(home, w.ledger.receipts, w.ledger.acknowledged, w.committed, w.acked)
  }

  // ---------------------------------------------------------------------------
  // Accounting keeps it

  lemma {:induction false} AdvanceRaises(receipts: seq<Cursor>, uid: Uid, number: int, other: Uid)
    ensures Accounted(Advance(receipts, uid, number), other) ==
            if other == uid then number else Accounted(receipts, other)
  {
    if receipts == [] {
      assert Advance(receipts, uid, number) == [Cursor(uid, number)];
    } else if receipts[0].execution == uid {
      assert Advance(receipts, uid, number)[1..] == receipts[1..];
    } else {
      AdvanceRaises(receipts[1..], uid, number, other);
      assert Advance(receipts, uid, number) == [receipts[0]] + Advance(receipts[1..], uid, number);
      assert Advance(receipts, uid, number)[1..] == Advance(receipts[1..], uid, number);
    }
  }

  /** Crediting bootstrap receipts and noticing an assignment keep the opportunity books. */
  lemma NoticedKeeps(plan: Bootstrap.Plan, b: Ledger, x: Execution, committed: seq<Offer>)
    requires Conserved(b) && Numbered(b, committed)
    ensures var r := Noticed(Funded(plan, b, x), x);
      && Conserved(r) && Numbered(r, committed)
      && r.receipts == b.receipts && r.acknowledged == b.acknowledged
  {
  }

  /** A receipt above its node's cursor has not been counted before. */
  lemma CountedKeeps(home: Home, b: Ledger, x: Execution, committed: seq<Offer>, acked: seq<Offer>)
    requires Acked(home, b.receipts, b.acknowledged, committed, acked)
    requires x.uid == home(x.participant)
    requires x.receipt.ForBaseline? && x.receipt.baseline.target == x.participant ==> x.receipt.baseline in committed
    ensures var r := Counted(b, x);
      Acked(home, r.receipts, r.acknowledged, committed,
            acked + (if Acknowledges(b, x) then [x.receipt.baseline] else []))
  {
    if Acknowledges(b, x) {
      var o := x.receipt.baseline;
      var all := acked + [o];
      forall i | 0 <= i < |all|
        ensures all[i] in committed
        ensures all[i].number <= Accounted(Counted(b, x).receipts, home(all[i].target))
      {
        AdvanceRaises(b.receipts, x.uid, o.number, home(all[i].target));
      }
    }
  }

  lemma {:induction false} AccountingKeeps(
    plan: Bootstrap.Plan, home: Home, b: Ledger, xs: seq<Execution>, committed: seq<Offer>, acked: seq<Offer>)
    requires Honest(home, committed, xs)
    requires Conserved(b) && Numbered(b, committed) && Acked(home, b.receipts, b.acknowledged, committed, acked)
    ensures var r := AccountAll(plan, b, xs);
      Conserved(r) && Numbered(r, committed) && Acked(home, r.receipts, r.acknowledged, committed, acked + Acks(plan, b, xs))
  {
    if xs == [] {
      assert acked + [] == acked;
    } else {
      var front, x := xs[..|xs| - 1], xs[|xs| - 1];
      AccountingKeeps(plan, home, b, front, committed, acked);
      var mid := AccountAll(plan, b, front);
      OneKeeps(plan, home, mid, x, committed, acked + Acks(plan, b, front));
      var added := if Acknowledges(Noticed(Funded(plan, mid, x), x), x) then [x.receipt.baseline] else [];
      assert (acked + Acks(plan, b, front)) + added == acked + (Acks(plan, b, front) + added);
    }
  }

  /** One more execution. */
  lemma OneKeeps(plan: Bootstrap.Plan, home: Home, mid: Ledger, x: Execution, committed: seq<Offer>, acked: seq<Offer>)
    requires Conserved(mid) && Numbered(mid, committed) && Acked(home, mid.receipts, mid.acknowledged, committed, acked)
    requires x.uid == home(x.participant)
    requires x.receipt.ForBaseline? && x.receipt.baseline.target == x.participant ==> x.receipt.baseline in committed
    ensures var r := AccountOne(plan, mid, x);
      && Conserved(r) && Numbered(r, committed)
      && Acked(home, r.receipts, r.acknowledged, committed,
           acked + (if Acknowledges(Noticed(Funded(plan, mid, x), x), x) then [x.receipt.baseline] else []))
  {
    NoticedKeeps(plan, mid, x, committed);
    var noticed := Noticed(Funded(plan, mid, x), x);
    CountedKeeps(home, noticed, x, committed, acked);
    SameBooks(noticed, Counted(noticed, x), committed);
  }

  /** Counting a receipt leaves the opportunity books alone. */
  lemma SameBooks(b: Ledger, r: Ledger, committed: seq<Offer>)
    requires Conserved(b) && Numbered(b, committed)
    requires r == b.(receipts := r.receipts, acknowledged := r.acknowledged)
    ensures Conserved(r) && Numbered(r, committed)
  {
  }

  // ---------------------------------------------------------------------------
  // Stages keep it

  lemma WithdrawnKeeps(b: Ledger, committed: seq<Offer>)
    requires Conserved(b) && Numbered(b, committed)
    ensures Conserved(Withdrawn(b)) && Numbered(Withdrawn(b), committed)
  {
  }

  lemma ProgressedKeeps(b: Ledger, f: Findings, committed: seq<Offer>)
    requires Conserved(b) && Numbered(b, committed) && Open(b.stage) && b.next.Some?
    ensures var r := Progressed(b, f);
      && Conserved(r)
      && Numbered(r, committed + (if b.stage.Selected? && r.stage.Offered? && r.offer.Some? then [r.offer.value] else []))
  {
    assert committed + [] == committed;
  }

  lemma OpenedKeeps(b: Ledger, f: Findings, committed: seq<Offer>)
    requires Conserved(b) && Numbered(b, committed) && !Open(b.stage) && b.next.Some?
    ensures Conserved(Opened(b, f)) && Numbered(Opened(b, f), committed)
  {
  }

  lemma ReconcileKeeps(plan: Bootstrap.Plan, home: Home, w: World, f: Findings)
    requires Inv(home, w) && Honest(home, w.committed, f.executions)
    ensures Inv(home, Apply(plan, w, Reconciles(f)))
  {
    var b := AccountAll(plan, w.ledger, f.executions);
    AccountingKeeps(plan, home, w.ledger, f.executions, w.committed, w.acked);
    var r := Reconciled(plan, w.ledger, f);
    WithdrawnKeeps(b, w.committed);
    if b.next.Some? {
      if Open(b.stage) {
        ProgressedKeeps(b, f, w.committed);
      } else {
        OpenedKeeps(b, f, w.committed);
      }
    }
    assert w.committed + [] == w.committed;
    CommitsAreKept(home, r.receipts, r.acknowledged, w.committed, Commits(plan, w.ledger, f),
      w.acked + Acks(plan, w.ledger, f.executions));
  }

  lemma CommitsAreKept(
    home: Home, receipts: seq<Cursor>, acknowledged: int, committed: seq<Offer>, more: seq<Offer>, acked: seq<Offer>)
    requires Acked(home, receipts, acknowledged, committed, acked)
    ensures Acked(home, receipts, acknowledged, committed + more, acked)
  {
  }

  lemma {:induction false} RunKeeps(plan: Bootstrap.Plan, home: Home, w: World, events: seq<Event>)
    requires Inv(home, w) && Run(plan, home, w, events)
    ensures Inv(home, After(plan, home, w, events))
    decreases |events|
  {
    if events != [] {
      match events[0] {
        case Reconciles(f) => ReconcileKeeps(plan, home, w, f);
        case Retimes => WithdrawnKeeps(w.ledger, w.committed);
      }
      RunKeeps(plan, home, Apply(plan, w, events[0]), events[1..]);
    }
  }

  // ---------------------------------------------------------------------------
  // Results

  /** What the first baseline reconcile starts from. */
  function Origin(lastAccounted: int, offer: Option<int>, funded: seq<Bootstrap.FundingCount>): (w: World)
  {
    World(Begun(lastAccounted, offer, funded), [], [], [])
  }

  /** In every reachable state the opportunities are those assigned, skipped, unassigned and the one still open. */
  lemma OpportunitiesAreConserved(
    plan: Bootstrap.Plan, home: Home, lastAccounted: int, offer: Option<int>, funded: seq<Bootstrap.FundingCount>,
    events: seq<Event>)
    requires Run(plan, home, Origin(lastAccounted, offer, funded), events)
    ensures var b := After(plan, home, Origin(lastAccounted, offer, funded), events).ledger;
      && b.opportunities == b.assignedCount + b.skipped + b.unassigned + (if b.stage.Selected? || b.stage.Offered? then 1 else 0)
      && 0 <= b.assignedCount <= MAX_INT64 && 0 <= b.skipped <= MAX_INT64 && 0 <= b.unassigned <= MAX_INT64
  {
    RunKeeps(plan, home, Origin(lastAccounted, offer, funded), events);
  }

  /** In every reachable state each acknowledgement has a committed opportunity of its own. */
  lemma AcknowledgementsAreOpportunities(
    plan: Bootstrap.Plan, home: Home, lastAccounted: int, offer: Option<int>, funded: seq<Bootstrap.FundingCount>,
    events: seq<Event>)
    requires Run(plan, home, Origin(lastAccounted, offer, funded), events)
    ensures var w := After(plan, home, Origin(lastAccounted, offer, funded), events);
      && w.ledger.acknowledged == |w.acked| <= |w.committed| <= w.ledger.opportunities
      && (forall i :: 0 <= i < |w.acked| ==> w.acked[i] in w.committed)
      && (forall i, j :: 0 <= i < j < |w.acked| ==> w.acked[i] != w.acked[j])
      && (forall i, j :: 0 <= i < j < |w.committed| ==> w.committed[i].number < w.committed[j].number)
  {
    RunKeeps(plan, home, Origin(lastAccounted, offer, funded), events);
    var w := After(plan, home, Origin(lastAccounted, offer, funded), events);
    Pigeonhole(w.acked, w.committed);
  }

  function Members<T>(s: seq<T>): (r: set<T>)
  {
    set x | x in s
  }

  lemma {:induction false} MembersOf<T>(s: seq<T>)
    ensures |Members(s)| <= |s|
    ensures (forall i, j :: 0 <= i < j < |s| ==> s[i] != s[j]) ==> |Members(s)| == |s|
  {
    if s != [] {
      var front, last := s[..|s| - 1], s[|s| - 1];
      MembersOf(front);
      assert s == front + [last];
      assert Members(s) == Members(front) + {last};
    }
  }

  lemma Pigeonhole<T>(few: seq<T>, many: seq<T>)
    requires forall i, j :: 0 <= i < j < |few| ==> few[i] != few[j]
    requires forall i :: 0 <= i < |few| ==> few[i] in many
    ensures |few| <= |many|
  {
    MembersOf(few);
    MembersOf(many);
    assert Members(few) <= Members(many);
    Subset(Members(few), Members(many));
  }

  lemma {:induction false} Subset<T>(a: set<T>, b: set<T>)
    requires a <= b
    ensures |a| <= |b|
  {
    if a != {} {
      var x :| x in a;
      Subset(a - {x}, b - {x});
    }
  }
}
