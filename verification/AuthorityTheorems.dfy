/** What the mutation-authority protocol guarantees over every run. */
module AuthorityTheorems {
  import opened Common
  import Hex
  import opened Reservations
  import opened Lifecycle
  import opened Authority
  import opened AuthorityInvariant
  import opened AuthorityWrites
  import opened AuthorityMoves

  // ---------------------------------------------------------------------------
  // The invariant holds throughout

  lemma InitHolds(index: BlockIndex, s: State)
    requires Init(s)
    ensures Inv(index, s)
  {
  }

  lemma StepMoveKeeps(index: BlockIndex, s: State, p: nat, e: StepMove)
    requires Inv(index, s) && StepEnabled(index, s, p, e)
    ensures Inv(index, StepApply(index, s, p, e))
  {
    match e {
      case Fetch => FetchKeeps(index, s, p);
      case Look(uid) => LookKeeps(index, s, p, uid);
      case Note(note, ack) => NoteKeeps(index, s, p, note, ack);
      case Reserve(admission, now, tip) => ReserveKeeps(index, s, p, admission, now, tip);
      case Release => ReleaseKeeps(index, s, p);
      case Halt(reason, uncertain, unsafe) => HaltKeeps(index, s, p, reason, uncertain, unsafe);
      case Verify => VerifyKeeps(index, s, p);
      case Settle(positions, tip) => SettleKeeps(index, s, p, positions, tip);
      case Abandon => AbandonKeeps(index, s, p);
    }
  }

  lemma ArmMoveKeeps(index: BlockIndex, s: State, p: nat, e: ArmMove)
    requires Inv(index, s) && ArmEnabled(s, p, e)
    ensures Inv(index, ArmApply(s, p, e))
  {
    match e {
      case Claim(rpc) => ClaimKeeps(index, s, p, rpc);
      case Recheck => RecheckKeeps(index, s, p);
      case Authorize(env) => AuthorizeKeeps(index, s, p, env);
      case Arm(nonce, ack) => ArmKeeps(index, s, p, nonce, ack);
      case Confirm(env) => ConfirmKeeps(index, s, p, env);
      case Refuse(reason) => RefuseKeeps(index, s, p, reason);
      case Reread => RereadKeeps(index, s, p);
      case Withdraw => WithdrawKeeps(index, s, p);
      case Launch => LaunchKeeps(index, s, p);
    }
  }

  lemma CollectorMoveKeeps(index: BlockIndex, s: State, p: nat, e: CollectorMove)
    requires Inv(index, s) && CollectorEnabled(s, p, e)
    ensures Inv(index, CollectorApply(s, p, e))
  {
    match e {
      case Dispatch => DispatchKeeps(index, s, p);
      case Account(delay, ack) => AccountKeeps(index, s, p, delay, ack);
      case _ => CollectorMovesKeep(index, s, p, e);
    }
  }

  lemma ChangeKeeps(index: BlockIndex, s: State, e: Change)
    requires Inv(index, s) && ChangeEnabled(s, e)
    ensures Inv(index, ChangeApply(s, e))
  {
    match e {
      case Publish(offer) => PublishKeeps(index, s, offer);
      case Create(uid, kind, expiresAt) => CreateKeeps(index, s, uid, kind, expiresAt);
      case Delete(uid, at) => DeleteKeeps(index, s, uid, at);
      case Remove(uid) => RemoveKeeps(index, s, uid);
      case _ => ProcessChangesKeep(index, s, e);
    }
  }

  lemma LifecycleMoveKeeps(index: BlockIndex, s: State, c: nat, e: LifecycleMove)
    requires Inv(index, s) && LifecycleEnabled(s, c, e)
    ensures Inv(index, LifecycleApply(s, c, e))
  {
    match e {
      case Judge(gone, now) => JudgeKeeps(index, s, c, gone, now);
      case Finalize(on, gone) => FinalizeKeeps(index, s, c, on, gone);
      case _ => ReadingKeeps(index, s, c, e);
    }
  }

  lemma EventKeeps(index: BlockIndex, s: State, e: Event)
    requires Inv(index, s) && Enabled(index, s, e)
    ensures Inv(index, Apply(index, s, e))
  {
    match e {
      case Stepping(p, m) => StepMoveKeeps(index, s, p, m);
      case Arms(p, m) => ArmMoveKeeps(index, s, p, m);
      case Collecting(p, m) => CollectorMoveKeeps(index, s, p, m);
      case Cluster(m) => ChangeKeeps(index, s, m);
      case Lifecycle(c, m) => LifecycleMoveKeeps(index, s, c, m);
    }
  }

  lemma {:induction false} RunKeeps(index: BlockIndex, s: State, events: seq<Event>)
    requires Inv(index, s) && Run(index, s, events)
    ensures Inv(index, After(index, s, events))
    decreases |events|
  {
    if events != [] {
      EventKeeps(index, s, events[0]);
      RunKeeps(index, Apply(index, s, events[0]), events[1..]);
    }
  }

  // ---------------------------------------------------------------------------
  // Which part of the world each kind of event may touch

  lemma StepFrame(index: BlockIndex, s: State, p: nat, m: StepMove)
    requires StepEnabled(index, s, p, m)
    ensures var t := StepApply(index, s, p, m);
      t.sent == s.sent && t.requests == s.requests && t.reconciles == s.reconciles
  {
  }

  lemma ArmFrame(s: State, p: nat, m: ArmMove)
    requires ArmEnabled(s, p, m)
    ensures var t := ArmApply(s, p, m); t.sent == s.sent && t.requests == s.requests && t.reconciles == s.reconciles
  {
  }

  lemma CollectorFrame(s: State, p: nat, m: CollectorMove)
    requires CollectorEnabled(s, p, m)
    ensures var t := CollectorApply(s, p, m);
      && t.requests == s.requests && t.reconciles == s.reconciles
      && t.sent == (if m.Dispatch? then Then(s.sent, s.workers[p].collector.op) else s.sent)
  {
  }

  lemma ChangeFrame(s: State, m: Change)
    requires ChangeEnabled(s, m)
    ensures var t := ChangeApply(s, m);
      && t.sent == s.sent && t.record.completed == s.record.completed && t.reconciles == s.reconciles
      && (forall uid :: uid in s.requests ==> uid in t.requests && Extends(s.requests[uid], t.requests[uid]))
  {
  }

  lemma LifecycleFrame(s: State, c: nat, m: LifecycleMove)
    requires LifecycleEnabled(s, c, m)
    ensures var t := LifecycleApply(s, c, m); t.sent == s.sent && t.record == s.record
  {
  }

  // ---------------------------------------------------------------------------
  // At most once, and nothing lost

  function SendsOf(log: Log<Armed>, id: Id): (n: nat)
  {
    match log
    case Start => 0
    case Then(past, op) => SendsOf(past, id) + (if op.id == id then 1 else 0)
  }

  function SendsOfOffer(log: Log<Armed>, number: int): (n: nat)
  {
    match log
    case Start => 0
    case Then(past, op) =>
      SendsOfOffer(past, number) + (if op.rpc.offer.Some? && op.rpc.offer.value.number == number then 1 else 0)
  }

  function ReceiptsOf(log: Log<Receipt>, op: Armed): (n: nat)
  {
    match log
    case Start => 0
    case Then(past, receipt) => ReceiptsOf(past, op) + (if receipt.request == op then 1 else 0)
  }

  lemma {:induction false} SentOnceCounts(log: Log<Armed>, id: Id)
    requires SentOnce(log)
    ensures SendsOf(log, id) == (if id in Ids(log) then 1 else 0)
  {
    match log {
      case Start =>
      case Then(past, _) => SentOnceCounts(past, id);
    }
  }

  lemma {:induction false} OfferSeen(log: Log<Armed>, number: int)
    requires forall q :: q in Sent(log) && q.rpc.offer.Some? ==> q.rpc.offer.value.number != number
    ensures SendsOfOffer(log, number) == 0
  {
    match log {
      case Start =>
      case Then(past, op) =>
        assert op in Sent(log);
        OfferSeen(past, number);
    }
  }

  lemma {:induction false} OffersOnceCounts(log: Log<Armed>, number: int)
    requires OffersOnce(log)
    ensures SendsOfOffer(log, number) <= 1
  {
    match log {
      case Start =>
      case Then(past, op) =>
        OffersOnceCounts(past, number);
        if op.rpc.offer.Some? && op.rpc.offer.value.number == number {
          OfferSeen(past, number);
        }
    }
  }

  lemma {:induction false} AnsweredOnceCounts(log: Log<Receipt>, op: Armed)
    requires AnsweredOnce(log)
    ensures ReceiptsOf(log, op) == (if op in Answered(log) then 1 else 0)
  {
    match log {
      case Start =>
      case Then(past, _) => AnsweredOnceCounts(past, op);
    }
  }

  /**
   * Over every run, with crashes, concurrent processes, lost write acknowledgements and lost responses:
   * each armed identifier is sent at most once, each receipt is accounted at most once and only for an
   * RPC that was sent, and the RPCs sent but not accounted are none or exactly the one the record's slot
   * holds.
   */
  lemma SendsAreAtMostOnceAndNeverLost(index: BlockIndex, s: State, events: seq<Event>, id: Id, op: Armed)
    requires Init(s) && Run(index, s, events)
    ensures var t := After(index, s, events);
      && SendsOf(t.sent, id) <= 1
      && ReceiptsOf(t.accounted, op) <= SendsOf(t.sent, op.id)
      && (Sent(t.sent) - Answered(t.accounted) == {} ||
          (t.record.armed.Some? && Sent(t.sent) - Answered(t.accounted) == {t.record.armed.value}))
  {
    InitHolds(index, s);
    RunKeeps(index, s, events);
    var t := After(index, s, events);
    SentOnceCounts(t.sent, id);
    SentOnceCounts(t.sent, op.id);
    AnsweredOnceCounts(t.accounted, op);
    SentIdsAreIds(t.sent, op);
  }

  /** Each offer number is sent at most once, and the block counter is the total of the accounted receipts. */
  lemma OffersAreSentOnceAndCounted(index: BlockIndex, s: State, events: seq<Event>, number: int)
    requires Init(s) && Run(index, s, events)
    ensures var t := After(index, s, events);
      SendsOfOffer(t.sent, number) <= 1 && t.record.blocks == BlockTotal(t.accounted)
  {
    InitHolds(index, s);
    RunKeeps(index, s, events);
    OffersOnceCounts(After(index, s, events).sent, number);
  }

  /** The completed-offer cursor moves only with an offer's receipt, and then strictly upward to that number. */
  lemma CompletedOfferIncreases(index: BlockIndex, s: State, events: seq<Event>, e: Event)
    requires Init(s) && Run(index, s, events) && Enabled(index, After(index, s, events), e)
    ensures var t := After(index, s, events); var u := Apply(index, t, e);
      if e.Collecting? && e.collect.Account? && t.workers[e.p].collector.receipt.request.rpc.offer.Some?
      then t.record.completed < u.record.completed == t.workers[e.p].collector.receipt.request.rpc.offer.value.number
      else u.record.completed == t.record.completed
  {
    InitHolds(index, s);
    RunKeeps(index, s, events);
    CursorMoves(index, After(index, s, events), e);
  }

  lemma CursorMoves(index: BlockIndex, t: State, e: Event)
    requires Inv(index, t) && Enabled(index, t, e)
    ensures var u := Apply(index, t, e);
      if e.Collecting? && e.collect.Account? && t.workers[e.p].collector.receipt.request.rpc.offer.Some?
      then t.record.completed < u.record.completed == t.workers[e.p].collector.receipt.request.rpc.offer.value.number
      else u.record.completed == t.record.completed
  {
    match e {
      case Collecting(p, m) => CollectorCursor(index, t, p, m);
      case Stepping(p, m) => StepCursor(index, t, p, m);
      case Arms(p, m) => ArmCursor(index, t, p, m);
      case Cluster(m) => ChangeFrame(t, m);
      case Lifecycle(c, m) => LifecycleFrame(t, c, m);
    }
  }

  lemma CollectorCursor(index: BlockIndex, t: State, p: nat, m: CollectorMove)
    requires Inv(index, t) && CollectorEnabled(t, p, m)
    ensures var u := CollectorApply(t, p, m);
      if m.Account? && t.workers[p].collector.receipt.request.rpc.offer.Some?
      then t.record.completed < u.record.completed == t.workers[p].collector.receipt.request.rpc.offer.value.number
      else u.record.completed == t.record.completed
  {
    if m.Account? {
      AccountFacts(index, t, p, m.delay);
    }
  }

  lemma StepCursor(index: BlockIndex, t: State, p: nat, m: StepMove)
    requires Inv(index, t) && StepEnabled(index, t, p, m)
    ensures StepApply(index, t, p, m).record.completed == t.record.completed
  {
    match m {
      case Reserve(_, now, tip) => ReserveFacts(index, t, p, now, tip);
      case Release => ReleaseFacts(index, t, p);
      case Note(_, _) => SnapshotIsRecord(index, t, p);
      case Halt(_, _, _) => SnapshotIsRecord(index, t, p);
      case Verify => SnapshotIsRecord(index, t, p);
      case Settle(_, _) => SnapshotIsRecord(index, t, p);
      case _ =>
    }
  }

  lemma ArmCursor(index: BlockIndex, t: State, p: nat, m: ArmMove)
    requires Inv(index, t) && ArmEnabled(t, p, m)
    ensures ArmApply(t, p, m).record.completed == t.record.completed
  {
    if m.Arm? {
      ArmFacts(index, t, p, m.nonce);
    } else if m.Withdraw? {
      WithdrawFacts(index, t, p);
    }
  }

  // ---------------------------------------------------------------------------
  // The order of one request's RPCs

  /**
   * A request's RPCs so far: nothing but generations within the quota, or one invalidation, then
   * generations within the quota, then at most one reconsideration, both markers naming `hash`.
   */
  ghost predicate Ordered(kind: Kind, hash: string, log: Log<Token>)
  {
    || (exists n: nat :: n <= Quota(kind) && kind.Generation? && log == Mines(Start, n))
    || (kind.Reorganization? && log == Start)
    || (exists n: nat :: n <= Quota(kind) && kind.Reorganization? && log == Mines(Then(Start, Invalidated(hash)), n))
    || (exists n: nat :: n <= Quota(kind) && kind.Reorganization? &&
          log == Then(Mines(Then(Start, Invalidated(hash)), n), Reconsidered(hash)))
  }

  lemma ScriptIsOrdered(index: BlockIndex, a: Reservation)
    requires ReservationOk(index, a)
    ensures Ordered(a.kind, a.invalidated, ScriptOf(Some(a)))
  {
    var n: nat := a.blocks;
    if a.kind.Generation? {
      assert ScriptOf(Some(a)) == Mines(Start, n);
    } else if a.invalidationAck {
      assert n <= Quota(a.kind);
      assert a.cleanupAck || ScriptOf(Some(a)) == Mines(Then(Start, Invalidated(a.invalidated)), n);
    }
  }

  lemma NextIsOrdered(index: BlockIndex, a: Reservation, rpc: Rpc)
    requires ReservationOk(index, a) && rpc.action.Some? && Fits(Some(a), rpc)
    ensures Ordered(a.kind, a.invalidated, Then(ScriptOf(Some(a)), TokenOf(rpc)))
  {
    var n: nat := a.blocks;
    var log := Then(ScriptOf(Some(a)), TokenOf(rpc));
    match rpc.verb {
      case Generate =>
        if a.kind.Generation? {
          assert log == Mines(Start, n + 1);
        } else {
          assert log == Mines(Then(Start, Invalidated(a.invalidated)), n + 1);
        }
      case Invalidate =>
        assert log == Mines(Then(Start, Invalidated(a.invalidated)), 0);
      case Reconsider =>
        assert log == Then(Mines(Then(Start, Invalidated(a.invalidated)), n), Reconsidered(a.invalidated));
    }
  }

  /**
   * For every request: it is granted the record at most once; the RPCs sent for it follow the one order
   * its kind allows, with markers naming the captured hash; and a request never granted the record has
   * none.
   */
  lemma RequestsSendInOrder(index: BlockIndex, s: State, events: seq<Event>, uid: Uid)
    requires Init(s) && Run(index, s, events)
    ensures var t := After(index, s, events); var book := Book(t.record.action, t.closed, uid);
      && Once(t.reserved) && (book.Some? <==> uid in Members(t.reserved))
      && (book.None? ==> SentFor(t.sent, uid) == Start)
      && (book.Some? ==> Ordered(book.value.kind, book.value.invalidated, SentFor(t.sent, uid)))
      && (book.Some? ==> uid in t.requests && AsAsked(t.requests[uid], book.value))
  {
    InitHolds(index, s);
    RunKeeps(index, s, events);
    OrderHolds(index, After(index, s, events), uid);
  }

  lemma OrderHolds(index: BlockIndex, t: State, uid: Uid)
    requires Inv(index, t)
    ensures var book := Book(t.record.action, t.closed, uid);
      && Once(t.reserved) && (book.Some? <==> uid in Members(t.reserved))
      && (book.None? ==> SentFor(t.sent, uid) == Start)
      && (book.Some? ==> Ordered(book.value.kind, book.value.invalidated, SentFor(t.sent, uid)))
      && (book.Some? ==> uid in t.requests && AsAsked(t.requests[uid], book.value))
  {
    var book := Book(t.record.action, t.closed, uid);
    assert BookOk(t.record.action, t.record.armed, t.closed, t.sent, t.accounted, uid);
    assert RequestOk(t.requests, t.record.action, t.record.armed, t.closed, t.sent, uid);
    if book.Some? {
      ScriptIsOrdered(index, book.value);
      if ArmedFor(t.record.armed, uid) {
        NextIsOrdered(index, t.record.action.value, t.record.armed.value.rpc);
      }
    }
  }

  // ---------------------------------------------------------------------------
  // Terminal outcomes

  /** Requests only move forward. */
  lemma EventExtends(index: BlockIndex, s: State, e: Event, uid: Uid)
    requires Inv(index, s) && Enabled(index, s, e) && uid in s.requests
    ensures uid in Apply(index, s, e).requests && Extends(s.requests[uid], Apply(index, s, e).requests[uid])
  {
    match e {
      case Stepping(p, m) => StepFrame(index, s, p, m);
      case Arms(p, m) => ArmFrame(s, p, m);
      case Collecting(p, m) => CollectorFrame(s, p, m);
      case Cluster(m) => ChangeFrame(s, m);
      case Lifecycle(c, m) => LifecycleExtends(index, s, c, m, uid);
    }
  }

  lemma LifecycleExtends(index: BlockIndex, s: State, c: nat, m: LifecycleMove, uid: Uid)
    requires Inv(index, s) && LifecycleEnabled(s, c, m) && uid in s.requests
    ensures uid in LifecycleApply(s, c, m).requests && Extends(s.requests[uid], LifecycleApply(s, c, m).requests[uid])
  {
    if m.Judge? || m.Finalize? {
      assert ReconcileOk(s.reconciles[c], s.requests, s.record.action, s.record.armed, s.closed);
    }
    if m.Judge? {
      JudgementIsSound(index, s, c, m.gone, m.now);
    }
  }

  /** A clean outcome admits no further RPC: not now, and not in the next state. */
  lemma CleanOutcomeSendsNoMore(index: BlockIndex, s: State, e: Event, uid: Uid)
    requires Inv(index, s) && Enabled(index, s, e) && uid in s.requests
    requires s.requests[uid].status.phase == Completed || s.requests[uid].status.phase == Failed
    ensures SentFor(Apply(index, s, e).sent, uid) == SentFor(s.sent, uid)
  {
    match e {
      case Stepping(p, m) => StepFrame(index, s, p, m);
      case Arms(p, m) => ArmFrame(s, p, m);
      case Cluster(m) => ChangeFrame(s, m);
      case Lifecycle(c, m) => LifecycleFrame(s, c, m);
      case Collecting(p, m) =>
        CollectorFrame(s, p, m);
        if m.Dispatch? {
          NothingLaunchedForCleanOutcome(index, s, p, uid);
        }
    }
  }

  lemma NothingLaunchedForCleanOutcome(index: BlockIndex, s: State, p: nat, uid: Uid)
    requires Inv(index, s) && CanDispatch(s, p) && uid in s.requests
    requires s.requests[uid].status.phase == Completed || s.requests[uid].status.phase == Failed
    ensures s.workers[p].collector.op.rpc.action != Some(uid)
  {
    assert WorkerOk(s.workers[p], s.record, s.requests, s.closed, s.ids, s.sent, p);
    assert RequestOk(s.requests, s.record.action, s.record.armed, s.closed, s.sent, uid);
    var op := s.workers[p].collector.op;
    if op.rpc.action == Some(uid) && op.rpc.verb == Reconsider {
      ReconsiderFollowsSend(index, s, op, uid);
    }
  }

  /**
   * Completed and Failed are permanent, keep their reason, and close the books: whatever interleaving
   * follows, no further RPC is ever sent for the request.
   */
  lemma {:induction false} CleanOutcomesAreFinal(index: BlockIndex, s: State, events: seq<Event>, uid: Uid)
    requires Inv(index, s) && Run(index, s, events) && uid in s.requests
    requires s.requests[uid].status.phase == Completed || s.requests[uid].status.phase == Failed
    ensures var t := After(index, s, events);
      && uid in t.requests
      && t.requests[uid].status.phase == s.requests[uid].status.phase
      && t.requests[uid].status.reason == s.requests[uid].status.reason
      && SentFor(t.sent, uid) == SentFor(s.sent, uid)
    decreases |events|
  {
    if events != [] {
      EventKeeps(index, s, events[0]);
      EventExtends(index, s, events[0], uid);
      CleanOutcomeSendsNoMore(index, s, events[0], uid);
      CleanOutcomesAreFinal(index, Apply(index, s, events[0]), events[1..], uid);
    }
  }

  /**
   * If a request is ever concluded Failed with NoDispatch, no RPC for it was sent before that moment and
   * none is sent after it, in any interleaving.
   */
  lemma NoDispatchIsTheTruth(index: BlockIndex, s: State, before: seq<Event>, rest: seq<Event>, uid: Uid)
    requires Init(s) && Run(index, s, before)
    requires var m := After(index, s, before); uid in m.requests && NoDispatched(m.requests[uid].status) && Run(index, m, rest)
    ensures var m := After(index, s, before); var t := After(index, m, rest);
      && SentFor(m.sent, uid) == Start && SentFor(t.sent, uid) == Start
      && uid in t.requests && NoDispatched(t.requests[uid].status)
  {
    InitHolds(index, s);
    RunKeeps(index, s, before);
    var m := After(index, s, before);
    assert RequestOk(m.requests, m.record.action, m.record.armed, m.closed, m.sent, uid);
    CleanOutcomesAreFinal(index, m, rest, uid);
  }

  /** Exactly the RPCs a finished action consists of. */
  ghost function WholeScript(kind: Kind, hash: string): (r: Log<Token>)
  {
    match kind
    case Generation(count, _) => Mines(Start, if count < 0 then 0 else count)
    case Reorganization(depth, _) =>
      Then(Mines(Then(Start, Invalidated(hash)), if depth < 0 then 0 else depth + 1), Reconsidered(hash))
  }

  /**
   * Completed is truthful and permanent: at that moment and ever after, the RPCs sent for the request are
   * exactly the whole script of its kind and every one of them is accounted; for a reorganization the
   * final chain is set, with everything that entails.
   */
  lemma CompletedIsTheTruth(index: BlockIndex, s: State, before: seq<Event>, rest: seq<Event>, uid: Uid)
    requires Init(s) && Run(index, s, before)
    requires var m := After(index, s, before);
      uid in m.requests && m.requests[uid].status.phase == Completed && Run(index, m, rest)
    ensures var m := After(index, s, before); var t := After(index, m, rest);
      var book := Book(t.record.action, t.closed, uid);
      && uid in t.requests && t.requests[uid].status.phase == Completed
      && book.Some? && book.value.kind == t.requests[uid].kind
      && SentFor(m.sent, uid) == WholeScript(book.value.kind, book.value.invalidated)
      && SentFor(t.sent, uid) == WholeScript(book.value.kind, book.value.invalidated)
      && AnsweredFor(t.accounted, uid) == WholeScript(book.value.kind, book.value.invalidated)
      && (book.value.kind.Reorganization? ==> book.value.final.Some? && ChainSound(index, book.value))
  {
    InitHolds(index, s);
    RunKeeps(index, s, before);
    var m := After(index, s, before);
    CleanOutcomesAreFinal(index, m, rest, uid);
    RunKeeps(index, m, rest);
    CompletedBooks(index, After(index, m, rest), uid);
  }

  lemma CompletedBooks(index: BlockIndex, t: State, uid: Uid)
    requires Inv(index, t) && uid in t.requests && t.requests[uid].status.phase == Completed
    ensures var book := Book(t.record.action, t.closed, uid);
      && book.Some? && book.value.kind == t.requests[uid].kind
      && SentFor(t.sent, uid) == WholeScript(book.value.kind, book.value.invalidated)
      && AnsweredFor(t.accounted, uid) == WholeScript(book.value.kind, book.value.invalidated)
      && (book.value.kind.Reorganization? ==> book.value.final.Some? && ChainSound(index, book.value))
  {
    assert RequestOk(t.requests, t.record.action, t.record.armed, t.closed, t.sent, uid);
    assert BookOk(t.record.action, t.record.armed, t.closed, t.sent, t.accounted, uid);
    CompleteIsWhole(index, Book(t.record.action, t.closed, uid).value);
  }

  lemma CompleteIsWhole(index: BlockIndex, a: Reservation)
    requires ReservationOk(index, a) && Complete(a)
    ensures ScriptOf(Some(a)) == WholeScript(a.kind, a.invalidated)
  {
  }

  /**
   * Whenever a reservation's final chain is set, in any reachable state, it is the replacement the request
   * asked for; see FinalChainIsTheReplacement for what soundness then gives.
   */
  lemma FinalChainsAreSound(index: BlockIndex, s: State, events: seq<Event>, uid: Uid)
    requires Init(s) && Run(index, s, events)
    ensures var t := After(index, s, events); var book := Book(t.record.action, t.closed, uid);
      book.Some? && book.value.kind.Reorganization? && book.value.final.Some? ==>
        var a := book.value;
        && ChainSound(index, a)
        && a.fork.value.height == a.original.value.height - a.kind.depth
        && a.accepted.value.height == a.original.value.height + 1
        && Hex.HashValid(a.original.value.work) && Hex.HashValid(a.accepted.value.work)
        && Hex.Value(a.original.value.work) < Hex.Value(a.accepted.value.work)
  {
    InitHolds(index, s);
    RunKeeps(index, s, events);
    var t := After(index, s, events);
    var book := Book(t.record.action, t.closed, uid);
    if book.Some? && book.value.kind.Reorganization? && book.value.final.Some? {
      FinalChainIsTheReplacement(index, book.value);
    }
  }
}
