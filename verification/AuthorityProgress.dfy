/**
 * What a reservation and a sent RPC can still become: reservations only move forward, a withdrawn RPC is dead, a
 * collector lets go of a receipt only when it is recorded, and generations keep their cadence.
 */
module AuthorityProgress {
  import opened Common
  import opened Reservations
  import opened Lifecycle
  import opened Authority
  import opened AuthorityInvariant
  import opened AuthorityWrites
  import opened AuthorityMoves
  import opened AuthorityTheorems

  // ---------------------------------------------------------------------------
  // Reservations only move forward

  /**
   * Later than: what was granted is unchanged, counters, acknowledgements and doubts only accumulate, a stop reason
   * and a final chain stay, and the next dispatch is not rescheduled before another block is accounted.
   */
  predicate Forward(a: Reservation, b: Reservation)
  {
    && b.request == a.request && b.kind == a.kind && b.admission == a.admission && b.expiresAt == a.expiresAt
    && b.original == a.original && b.fork == a.fork && b.invalidated == a.invalidated
    && a.blocks <= b.blocks && a.replacements <= b.replacements
    && (a.started ==> b.started) && (a.invalidationAck ==> b.invalidationAck) && (a.cleanupAck ==> b.cleanupAck)
    && (a.stopReason != Running ==> b.stopReason == a.stopReason)
    && (a.effectUncertain ==> b.effectUncertain) && (a.cleanupUnsafe ==> b.cleanupUnsafe)
    && (a.final.Some? ==> b.final == a.final)
    && (b.blocks == a.blocks ==> b.nextDispatchAt == a.nextDispatchAt)
  }

  ghost predicate BookForward(s: State, t: State, uid: Uid)
  {
    var a, b := Book(s.record.action, s.closed, uid), Book(t.record.action, t.closed, uid);
    a.Some? ==> b.Some? && Forward(a.value, b.value)
  }

  lemma Same(a: Reservation)
    ensures Forward(a, a)
  {
  }

  lemma StopIsForward(a: Reservation, reason: StopReason, uncertain: bool, unsafe: bool)
    ensures Forward(a, Stop(a, reason, uncertain, unsafe))
  {
  }

  lemma GenerateIsForward(a: Reservation, id: Id, hash: string, receivedAt: int, delay: Option<int>)
    requires AccountReceipt(a, Generate, id, hash, receivedAt, delay).Some?
    ensures Forward(a, AccountReceipt(a, Generate, id, hash, receivedAt, delay).value)
  {
    var b := AccountReceipt(a, Generate, id, hash, receivedAt, delay).value;
    assert b.blocks == a.blocks + 1;
    assert b == a.(lastDispatch := b.lastDispatch, lastCompletedAt := b.lastCompletedAt, blocks := b.blocks,
                   nextDispatchAt := b.nextDispatchAt, replacements := b.replacements);
  }

  lemma AccountIsForward(a: Reservation, verb: Verb, id: Id, hash: string, receivedAt: int, delay: Option<int>)
    requires AccountReceipt(a, verb, id, hash, receivedAt, delay).Some?
    ensures Forward(a, AccountReceipt(a, verb, id, hash, receivedAt, delay).value)
  {
    var b := AccountReceipt(a, verb, id, hash, receivedAt, delay).value;
    match verb {
      case Generate => GenerateIsForward(a, id, hash, receivedAt, delay);
      case Invalidate =>
        assert b == a.(lastDispatch := b.lastDispatch, lastCompletedAt := b.lastCompletedAt, invalidationAck := true);
      case Reconsider =>
        assert b == a.(lastDispatch := b.lastDispatch, lastCompletedAt := b.lastCompletedAt, cleanupAck := true);
    }
  }

  /** What a write does to the reservations, held and closed. */
  ghost predicate Carries(action: Option<Reservation>, closed: map<Uid, Reservation>,
                          action': Option<Reservation>, closed': map<Uid, Reservation>)
  {
    || (closed' == closed && action'.Some? && action.Some? && Forward(action.value, action'.value))
    || (closed' == closed && action' == action)
    || (closed' == closed && action.None? && action'.Some? && action'.value.request !in closed)
    || (action.Some? && action'.None? && closed' == closed[action.value.request := action.value])
  }

  lemma CarriedBooks(s: State, t: State, uid: Uid)
    requires Carries(s.record.action, s.closed, t.record.action, t.closed)
    ensures BookForward(s, t, uid)
  {
    var a := Book(s.record.action, s.closed, uid);
    if a.Some? {
      Same(a.value);
    }
  }

  lemma StepCarries(index: BlockIndex, s: State, p: nat, m: StepMove)
    requires Inv(index, s) && StepEnabled(index, s, p, m)
    ensures var t := StepApply(index, s, p, m);
      && Carries(s.record.action, s.closed, t.record.action, t.closed)
      && t.record.armed == s.record.armed && t.record.receipt == s.record.receipt
      && t.ids == s.ids && t.accounted == s.accounted
  {
    match m {
      case Reserve(admission, now, tip) => ReserveFacts(index, s, p, now, tip);
      case Release => ReleaseFacts(index, s, p);
      case Halt(reason, uncertain, unsafe) => HaltCarries(index, s, p, reason, uncertain, unsafe);
      case Verify => VerifyCarries(index, s, p);
      case Settle(positions, tip) => SettleCarries(index, s, p, positions, tip);
      case Note(_, _) => SnapshotIsRecord(index, s, p);
      case _ =>
    }
  }

  lemma HaltCarries(index: BlockIndex, s: State, p: nat, reason: StopReason, uncertain: bool, unsafe: bool)
    requires Inv(index, s) && HoldsAction(s, p)
    ensures var t := DoHalt(s, p, reason, uncertain, unsafe);
      && Carries(s.record.action, s.closed, t.record.action, t.closed)
      && t.record.armed == s.record.armed && t.record.receipt == s.record.receipt
  {
    SnapshotIsRecord(index, s, p);
    StopIsForward(s.record.action.value, reason, uncertain, unsafe);
  }

  lemma VerifyCarries(index: BlockIndex, s: State, p: nat)
    requires Inv(index, s) && CanVerify(index, s, p)
    ensures var t := DoVerify(index, s, p);
      && Carries(s.record.action, s.closed, t.record.action, t.closed)
      && t.record.armed == s.record.armed && t.record.receipt == s.record.receipt
  {
    SnapshotIsRecord(index, s, p);
    var a := s.record.action.value;
    var b := VerifyReplacement(index, a).next;
    assert b == a.(accepted := b.accepted);
    Same(a);
  }

  lemma SettleCarries(index: BlockIndex, s: State, p: nat, positions: seq<string>, tip: ChainPoint)
    requires Inv(index, s) && CanSettle(index, s, p, positions, tip)
    ensures var t := DoSettle(index, s, p, positions, tip);
      && Carries(s.record.action, s.closed, t.record.action, t.closed)
      && t.record.armed == s.record.armed && t.record.receipt == s.record.receipt
  {
    SnapshotIsRecord(index, s, p);
    var a := s.record.action.value;
    var b := Finish(index, a, positions, tip).value;
    assert b == a.(final := b.final) && a.final.None?;
    Same(a);
  }

  lemma ArmMoveCarries(index: BlockIndex, s: State, p: nat, m: ArmMove)
    requires Inv(index, s) && ArmEnabled(s, p, m)
    ensures var t := ArmApply(s, p, m);
      && Carries(s.record.action, s.closed, t.record.action, t.closed)
      && t.record.receipt == s.record.receipt && t.accounted == s.accounted && s.ids <= t.ids
      && (t.record.armed.Some? ==> t.record.armed == s.record.armed || t.record.armed.value.id !in s.ids)
  {
    if m.Arm? {
      ArmFacts(index, s, p, m.nonce);
      if s.record.action.Some? {
        Same(s.record.action.value);
      }
    } else if m.Withdraw? {
      WithdrawFacts(index, s, p);
      if s.record.action.Some? {
        StopIsForward(s.record.action.value, s.workers[p].pc.reason, false, false);
      }
    }
  }

  lemma CollectorCarries(index: BlockIndex, s: State, p: nat, m: CollectorMove)
    requires Inv(index, s) && CollectorEnabled(s, p, m)
    ensures var t := CollectorApply(s, p, m);
      && Carries(s.record.action, s.closed, t.record.action, t.closed)
      && t.ids == s.ids && (t.record.armed.Some? ==> t.record.armed == s.record.armed)
      && (if m.Account?
          then t.accounted == Then(s.accounted, s.workers[p].collector.receipt) &&
               t.record.receipt == Some(s.workers[p].collector.receipt)
          else t.accounted == s.accounted && t.record == s.record)
  {
    if m.Account? {
      AccountFacts(index, s, p, m.delay);
      var receipt := s.workers[p].collector.receipt;
      if receipt.request.rpc.action.Some? {
        AccountIsForward(s.record.action.value, receipt.request.rpc.verb, receipt.request.id, receipt.hash,
          receipt.receivedAt, m.delay);
      }
    }
  }

  lemma ChangeCarries(s: State, m: Change)
    requires ChangeEnabled(s, m)
    ensures var t := ChangeApply(s, m);
      && t.record.action == s.record.action && t.closed == s.closed && t.record.armed == s.record.armed
      && t.record.receipt == s.record.receipt && t.ids == s.ids && t.accounted == s.accounted && t.sent == s.sent
      && (forall p :: p in t.workers ==>
            t.workers[p].collector.Quiet? || (p in s.workers && t.workers[p].collector == s.workers[p].collector))
  {
  }

  lemma LifecycleCarries(s: State, c: nat, m: LifecycleMove)
    requires LifecycleEnabled(s, c, m)
    ensures var t := LifecycleApply(s, c, m);
      && t.record == s.record && t.closed == s.closed && t.ids == s.ids && t.accounted == s.accounted && t.sent == s.sent
      && t.workers == s.workers
  {
  }

  lemma EventCarries(index: BlockIndex, s: State, e: Event)
    requires Inv(index, s) && Enabled(index, s, e)
    ensures Carries(s.record.action, s.closed, Apply(index, s, e).record.action, Apply(index, s, e).closed)
  {
    match e {
      case Stepping(p, m) => StepCarries(index, s, p, m);
      case Arms(p, m) => ArmMoveCarries(index, s, p, m);
      case Collecting(p, m) => CollectorCarries(index, s, p, m);
      case Cluster(m) => ChangeCarries(s, m);
      case Lifecycle(c, m) => LifecycleCarries(s, c, m);
    }
  }

  lemma ForwardChains(s: State, t: State, u: State, uid: Uid)
    requires BookForward(s, t, uid) && BookForward(t, u, uid)
    ensures BookForward(s, u, uid)
  {
  }

  /** Over every run, what a request was granted and has reached is never taken back, the record's release included. */
  lemma {:induction false} ReservationsOnlyMoveForward(index: BlockIndex, s: State, events: seq<Event>, uid: Uid)
    requires Inv(index, s) && Run(index, s, events)
    ensures var a, b := Book(s.record.action, s.closed, uid),
                        Book(After(index, s, events).record.action, After(index, s, events).closed, uid);
      a.Some? ==> b.Some? && Forward(a.value, b.value)
    decreases |events|
  {
    if events != [] {
      var m := Apply(index, s, events[0]);
      EventKeeps(index, s, events[0]);
      EventCarries(index, s, events[0]);
      CarriedBooks(s, m, uid);
      ReservationsOnlyMoveForward(index, m, events[1..], uid);
      ForwardChains(s, m, After(index, s, events), uid);
    }
  }

  // ---------------------------------------------------------------------------
  // Cadence

  /** How long the action waits after a generation: the sampled delay, or a second between replacement blocks. */
  function Wait(kind: Kind, delay: Option<int>): (n: int)
  {
    if kind.Reorganization? then 1_000_000_000 else if delay.Some? then delay.value else 0
  }

  /**
   * After an accounted generation that leaves more to do, and in every later state that has accounted no further
   * block, no generation of that request is authorized before the receipt's time plus its delay, rounded up to a
   * whole second.
   */
  lemma GenerationsKeepTheirDistance(
    index: BlockIndex, s: State, p: nat, delay: Option<int>, ack: Ack, events: seq<Event>, rpc: Rpc, view: Option<Request>,
    env: Answers, receipt: Receipt, a: Reservation, t: State, u: State)
    requires Inv(index, s) && CanAccount(s, p, delay) && receipt == s.workers[p].collector.receipt
    requires receipt.request.rpc.verb == Generate && receipt.request.rpc.action.Some? && s.record.action == Some(a)
    requires t == DoAccount(s, p, delay, ack) && Run(index, t, events) && u == After(index, t, events)
    requires u.record.action.Some? && u.record.action.value.blocks == a.blocks + 1
    requires rpc.verb == Generate && rpc.action == receipt.request.rpc.action && AuthorizesAction(u.record, rpc, view, env)
    ensures var due := receipt.receivedAt + Wait(a.kind, delay);
      && due <= env.now
      && (receipt.receivedAt < due ==> (due + 999_999_999) / 1_000_000_000 * 1_000_000_000 <= env.now)
  {
    AccountKeeps(index, s, p, delay, ack);
    AccountedAction(index, s, p, delay, ack);
    HeldForward(index, t, events, u, rpc.action.value);
    NotBeforeDue(a, receipt, delay, u.record, rpc, view, env);
  }

  lemma HeldForward(index: BlockIndex, t: State, events: seq<Event>, u: State, uid: Uid)
    requires Inv(index, t) && Run(index, t, events) && u == After(index, t, events)
    requires t.record.action.Some? && t.record.action.value.request == uid
    requires u.record.action.Some? && u.record.action.value.request == uid
    ensures Forward(t.record.action.value, u.record.action.value)
  {
    ReservationsOnlyMoveForward(index, t, events, uid);
  }

  /** The same on one reservation and a later record that holds it. */
  lemma NotBeforeDue(a: Reservation, receipt: Receipt, delay: Option<int>, u: Record, rpc: Rpc, view: Option<Request>, env: Answers)
    requires AccountReceipt(a, Generate, receipt.request.id, receipt.hash, receipt.receivedAt, delay).Some?
    requires var b := AccountReceipt(a, Generate, receipt.request.id, receipt.hash, receipt.receivedAt, delay).value;
      u.action.Some? && Forward(b, u.action.value) && u.action.value.blocks == a.blocks + 1
    requires rpc.verb == Generate && AuthorizesAction(u, rpc, view, env)
    ensures var due := receipt.receivedAt + Wait(a.kind, delay);
      && due <= env.now
      && (receipt.receivedAt < due ==> (due + 999_999_999) / 1_000_000_000 * 1_000_000_000 <= env.now)
  {
    var b := AccountReceipt(a, Generate, receipt.request.id, receipt.hash, receipt.receivedAt, delay).value;
    AccountIsForward(a, Generate, receipt.request.id, receipt.hash, receipt.receivedAt, delay);
    assert u.action.value.blocks < Quota(u.action.value.kind) && u.action.value.kind == a.kind;
    DueAfterReceipt(a, receipt, delay);
    WholeSecond(receipt.receivedAt + Wait(a.kind, delay));
  }

  lemma AccountedAction(index: BlockIndex, s: State, p: nat, delay: Option<int>, ack: Ack)
    requires Inv(index, s) && CanAccount(s, p, delay) && s.workers[p].collector.receipt.request.rpc.action.Some?
    ensures var receipt := s.workers[p].collector.receipt; var t := DoAccount(s, p, delay, ack);
      && s.record.action.Some? && s.record.action.value.request == receipt.request.rpc.action.value
      && t.record.action == AccountReceipt(s.record.action.value, receipt.request.rpc.verb, receipt.request.id,
                                           receipt.hash, receipt.receivedAt, delay)
      && t.record.action.Some? && t.record.action.value.request == receipt.request.rpc.action.value
  {
    AccountFacts(index, s, p, delay);
    var receipt := s.workers[p].collector.receipt;
    AccountIsForward(s.record.action.value, receipt.request.rpc.verb, receipt.request.id, receipt.hash, receipt.receivedAt, delay);
  }

  lemma DueAfterReceipt(a: Reservation, receipt: Receipt, delay: Option<int>)
    requires AccountReceipt(a, Generate, receipt.request.id, receipt.hash, receipt.receivedAt, delay).Some?
    requires a.blocks + 1 < Quota(a.kind)
    ensures var b := AccountReceipt(a, Generate, receipt.request.id, receipt.hash, receipt.receivedAt, delay).value;
      var due := receipt.receivedAt + Wait(a.kind, delay);
      && b.nextDispatchAt.Some? && b.blocks == a.blocks + 1
      && b.nextDispatchAt.value ==
           (if receipt.receivedAt < due then (due + 999_999_999) / 1_000_000_000 * 1_000_000_000 else due)
  {
    WholeSecond(receipt.receivedAt + Wait(a.kind, delay));
  }

  /** The retained time is the first whole second not before it. */
  lemma WholeSecond(t: int)
    ensures CeilSecond(t) == (t + 999_999_999) / 1_000_000_000 * 1_000_000_000
  {
  }

  // ---------------------------------------------------------------------------
  // A withdrawn RPC is dead

  /** Armed once, out of the slot again, and never sent. */
  ghost predicate Dead(s: State, id: Id)
  {
    id in s.ids && id !in Ids(s.sent) && (s.record.armed.Some? ==> s.record.armed.value.id != id)
  }

  lemma EventKeepsDead(index: BlockIndex, s: State, e: Event, id: Id)
    requires Inv(index, s) && Enabled(index, s, e) && Dead(s, id)
    ensures Dead(Apply(index, s, e), id)
  {
    match e {
      case Stepping(p, m) =>
        StepCarries(index, s, p, m);
        StepFrame(index, s, p, m);
      case Arms(p, m) =>
        ArmMoveCarries(index, s, p, m);
        ArmFrame(s, p, m);
      case Collecting(p, m) =>
        CollectorCarries(index, s, p, m);
        CollectorFrame(s, p, m);
        OnlyTheArmedIsSent(index, s, p, m);
      case Cluster(m) => ChangeCarries(s, m);
      case Lifecycle(c, m) => LifecycleCarries(s, c, m);
    }
  }

  lemma OnlyTheArmedIsSent(index: BlockIndex, s: State, p: nat, m: CollectorMove)
    requires Inv(index, s) && CollectorEnabled(s, p, m)
    ensures m.Dispatch? ==> s.record.armed == Some(s.workers[p].collector.op)
  {
    assert WorkerOk(s.workers[p], s.record, s.requests, s.closed, s.ids, s.sent, p);
  }

  lemma {:induction false} DeadStaysDead(index: BlockIndex, s: State, events: seq<Event>, id: Id)
    requires Inv(index, s) && Run(index, s, events) && Dead(s, id)
    ensures Dead(After(index, s, events), id)
    decreases |events|
  {
    if events != [] {
      EventKeeps(index, s, events[0]);
      EventKeepsDead(index, s, events[0], id);
      DeadStaysDead(index, Apply(index, s, events[0]), events[1..], id);
    }
  }

  /** An authorization taken back was never used and never will be, and the slot is free for another. */
  lemma WithdrawnRpcsAreNeverSent(index: BlockIndex, s: State, p: nat, events: seq<Event>)
    requires Inv(index, s) && CanWithdraw(s, p) && Run(index, ArmApply(s, p, Withdraw), events)
    ensures ArmApply(s, p, Withdraw).record.armed.None?
    ensures var id := s.workers[p].pc.op.id;
      SendsOf(s.sent, id) == 0 && SendsOf(After(index, ArmApply(s, p, Withdraw), events).sent, id) == 0
  {
    var t := ArmApply(s, p, Withdraw);
    var op := s.workers[p].pc.op;
    WithdrawFacts(index, s, p);
    assert WorkerOk(s.workers[p], s.record, s.requests, s.closed, s.ids, s.sent, p);
    ArmMoveKeeps(index, s, p, Withdraw);
    DeadStaysDead(index, t, events, op.id);
    RunKeeps(index, t, events);
    SentOnceCounts(s.sent, op.id);
    SentOnceCounts(After(index, t, events).sent, op.id);
  }

  // ---------------------------------------------------------------------------
  // Receipts are kept until they are recorded

  /** The record shows the last receipt accounted, and whatever receipt a collector read there was accounted. */
  ghost predicate Retained(s: State)
  {
    && s.record.receipt == (if s.accounted.Start? then None else Some(s.accounted.last))
    && forall p :: p in s.workers && s.workers[p].collector.Collected? ==>
         ReceiptKnown(s.workers[p].collector.cur, s.accounted)
  }

  ghost predicate ReceiptKnown(cur: Record, accounted: Log<Receipt>)
  {
    cur.receipt.Some? ==> cur.receipt.value.request in Answered(accounted)
  }

  lemma StepKeepsRetained(index: BlockIndex, s: State, p: nat, m: StepMove)
    requires Inv(index, s) && StepEnabled(index, s, p, m) && Retained(s)
    ensures Retained(StepApply(index, s, p, m))
  {
    StepCarries(index, s, p, m);
    StepKeepsCollectors(index, s, p, m);
    CollectorsUntouched(s, StepApply(index, s, p, m), p);
  }

  lemma StepKeepsCollectors(index: BlockIndex, s: State, p: nat, m: StepMove)
    requires StepEnabled(index, s, p, m)
    ensures var t := StepApply(index, s, p, m);
      && p in s.workers && p in t.workers && t.workers[p].collector == s.workers[p].collector
      && (forall q :: q in t.workers && q != p ==> q in s.workers && t.workers[q] == s.workers[q])
  {
  }

  /** A step changes no collector. */
  lemma CollectorsUntouched(s: State, t: State, p: nat)
    requires Retained(s) && t.accounted == s.accounted && t.record.receipt == s.record.receipt
    requires p in t.workers ==> p in s.workers && t.workers[p].collector == s.workers[p].collector
    requires forall q :: q in t.workers && q != p ==> q in s.workers && t.workers[q] == s.workers[q]
    ensures Retained(t)
  {
    forall q | q in t.workers && t.workers[q].collector.Collected?
      ensures ReceiptKnown(t.workers[q].collector.cur, t.accounted)
    {
      assert ReceiptKnown(s.workers[q].collector.cur, s.accounted);
    }
  }

  lemma ArmMoveKeepsRetained(index: BlockIndex, s: State, p: nat, m: ArmMove)
    requires Inv(index, s) && ArmEnabled(s, p, m) && Retained(s)
    ensures Retained(ArmApply(s, p, m))
  {
    var t := ArmApply(s, p, m);
    ArmMoveCarries(index, s, p, m);
    if m.Launch? {
      assert t.workers[p].collector.Launched?;
    } else {
      CollectorsUntouched(s, t, p);
    }
  }

  lemma CollectorKeepsRetained(index: BlockIndex, s: State, p: nat, m: CollectorMove)
    requires Inv(index, s) && CollectorEnabled(s, p, m) && Retained(s)
    ensures Retained(CollectorApply(s, p, m))
  {
    var t := CollectorApply(s, p, m);
    CollectorCarries(index, s, p, m);
    forall q | q in t.workers && t.workers[q].collector.Collected?
      ensures ReceiptKnown(t.workers[q].collector.cur, t.accounted)
    {
      if q != p {
        assert ReceiptKnown(s.workers[q].collector.cur, s.accounted);
      }
    }
  }

  lemma ChangeKeepsRetained(s: State, t: State)
    requires Retained(s) && t.accounted == s.accounted && t.record.receipt == s.record.receipt
    requires forall p :: p in t.workers ==>
      t.workers[p].collector.Quiet? || (p in s.workers && t.workers[p].collector == s.workers[p].collector)
    ensures Retained(t)
  {
    forall q | q in t.workers && t.workers[q].collector.Collected?
      ensures ReceiptKnown(t.workers[q].collector.cur, t.accounted)
    {
      assert ReceiptKnown(s.workers[q].collector.cur, s.accounted);
    }
  }

  lemma EventKeepsRetained(index: BlockIndex, s: State, e: Event)
    requires Inv(index, s) && Enabled(index, s, e) && Retained(s)
    ensures Retained(Apply(index, s, e))
  {
    match e {
      case Stepping(p, m) => StepKeepsRetained(index, s, p, m);
      case Arms(p, m) => ArmMoveKeepsRetained(index, s, p, m);
      case Collecting(p, m) => CollectorKeepsRetained(index, s, p, m);
      case Cluster(m) =>
        ChangeCarries(s, m);
        ChangeKeepsRetained(s, ChangeApply(s, m));
      case Lifecycle(c, m) => LifecycleCarries(s, c, m);
    }
  }

  lemma {:induction false} RunKeepsRetained(index: BlockIndex, s: State, events: seq<Event>)
    requires Inv(index, s) && Run(index, s, events) && Retained(s)
    ensures Retained(After(index, s, events))
    decreases |events|
  {
    if events != [] {
      EventKeeps(index, s, events[0]);
      EventKeepsRetained(index, s, events[0]);
      RunKeepsRetained(index, Apply(index, s, events[0]), events[1..]);
    }
  }

  lemma {:induction false} OneRpcPerId(log: Log<Armed>, a: Armed, b: Armed)
    requires SentOnce(log) && a in Sent(log) && b in Sent(log) && a.id == b.id
    ensures a == b
  {
    match log {
      case Then(past, op) =>
        SentIdsAreIds(past, a);
        SentIdsAreIds(past, b);
        if a != op && b != op {
          OneRpcPerId(past, a, b);
        }
    }
  }

  /**
   * The record always shows the last receipt accounted; and a collector that stops because it finds its receipt
   * recorded, after any lost acknowledgement, is right: that RPC's receipt was accounted.
   */
  lemma ReceiptsAreKeptUntilRecorded(index: BlockIndex, s: State, events: seq<Event>, p: nat)
    requires Init(s) && Run(index, s, events)
    ensures var t := After(index, s, events);
      && t.record.receipt == (if t.accounted.Start? then None else Some(t.accounted.last))
      && (CollectorEnabled(t, p, Done) ==> ReceiptsOf(t.accounted, t.workers[p].collector.receipt.request) == 1)
  {
    InitHolds(index, s);
    RunKeepsRetained(index, s, events);
    RunKeeps(index, s, events);
    var t := After(index, s, events);
    if CollectorEnabled(t, p, Done) {
      var c := t.workers[p].collector;
      assert WorkerOk(t.workers[p], t.record, t.requests, t.closed, t.ids, t.sent, p);
      assert ReceiptKnown(c.cur, t.accounted);
      OneRpcPerId(t.sent, c.cur.receipt.value.request, c.receipt.request);
      AnsweredOnceCounts(t.accounted, c.receipt.request);
    }
  }

  // ---------------------------------------------------------------------------
  // Started before sent, repaired before released

  /** An action is marked started before its first RPC can leave, and nothing is given back half undone. */
  ghost predicate Marked(action: Option<Reservation>, armed: Option<Armed>, closed: map<Uid, Reservation>)
  {
    && (action.Some? ==> Begun(action.value))
    && (armed.Some? && armed.value.rpc.action.Some? ==> action.Some? && action.value.started)
    && forall uid :: uid in closed ==> Begun(closed[uid]) && Repaired(closed[uid])
  }

  predicate Begun(a: Reservation)
  {
    0 < a.blocks || a.invalidationAck || a.cleanupAck ==> a.started
  }

  predicate Repaired(a: Reservation)
  {
    a.kind.Reorganization? && a.invalidationAck ==> a.cleanupAck
  }

  lemma StepKeepsMarked(index: BlockIndex, s: State, p: nat, m: StepMove)
    requires Inv(index, s) && StepEnabled(index, s, p, m) && Marked(s.record.action, s.record.armed, s.closed)
    ensures var t := StepApply(index, s, p, m); Marked(t.record.action, t.record.armed, t.closed)
  {
    match m {
      case Reserve(admission, now, tip) => ReserveFacts(index, s, p, now, tip);
      case Release => ReleaseFacts(index, s, p);
      case Halt(_, _, _) => SnapshotIsRecord(index, s, p);
      case Verify => SnapshotIsRecord(index, s, p);
      case Settle(_, _) => SnapshotIsRecord(index, s, p);
      case Note(_, _) => SnapshotIsRecord(index, s, p);
      case _ =>
    }
  }

  lemma ArmMoveKeepsMarked(index: BlockIndex, s: State, p: nat, m: ArmMove)
    requires Inv(index, s) && ArmEnabled(s, p, m) && Marked(s.record.action, s.record.armed, s.closed)
    ensures var t := ArmApply(s, p, m); Marked(t.record.action, t.record.armed, t.closed)
  {
    if m.Arm? {
      ArmFacts(index, s, p, m.nonce);
    } else if m.Withdraw? {
      WithdrawFacts(index, s, p);
    }
  }

  lemma CollectorKeepsMarked(index: BlockIndex, s: State, p: nat, m: CollectorMove)
    requires Inv(index, s) && CollectorEnabled(s, p, m) && Marked(s.record.action, s.record.armed, s.closed)
    ensures var t := CollectorApply(s, p, m); Marked(t.record.action, t.record.armed, t.closed)
  {
    CollectorCarries(index, s, p, m);
    if m.Account? {
      AccountFacts(index, s, p, m.delay);
    }
  }

  lemma {:induction false} RunKeepsMarked(index: BlockIndex, s: State, events: seq<Event>)
    requires Inv(index, s) && Run(index, s, events) && Marked(s.record.action, s.record.armed, s.closed)
    ensures var t := After(index, s, events); Marked(t.record.action, t.record.armed, t.closed)
    decreases |events|
  {
    if events != [] {
      EventKeeps(index, s, events[0]);
      EventKeepsMarked(index, s, events[0]);
      RunKeepsMarked(index, Apply(index, s, events[0]), events[1..]);
    }
  }

  lemma EventKeepsMarked(index: BlockIndex, s: State, e: Event)
    requires Inv(index, s) && Enabled(index, s, e) && Marked(s.record.action, s.record.armed, s.closed)
    ensures var t := Apply(index, s, e); Marked(t.record.action, t.record.armed, t.closed)
  {
    match e {
      case Stepping(p, m) => StepKeepsMarked(index, s, p, m);
      case Arms(p, m) => ArmMoveKeepsMarked(index, s, p, m);
      case Collecting(p, m) => CollectorKeepsMarked(index, s, p, m);
      case Cluster(m) => ChangeCarries(s, m);
      case Lifecycle(c, m) => LifecycleCarries(s, c, m);
    }
  }

  /**
   * Over every run: a request for which anything was sent is marked started on its reservation, and a released
   * reservation leaves no invalidated suffix behind that was not reconsidered.
   */
  lemma StartedBeforeSentAndRepairedBeforeReleased(index: BlockIndex, s: State, events: seq<Event>, uid: Uid)
    requires Init(s) && Run(index, s, events)
    ensures var t := After(index, s, events); var book := Book(t.record.action, t.closed, uid);
      && (SentFor(t.sent, uid) != Start ==> book.Some? && book.value.started)
      && (uid in t.closed && t.closed[uid].kind.Reorganization? && t.closed[uid].invalidationAck ==> t.closed[uid].cleanupAck)
  {
    InitHolds(index, s);
    RunKeeps(index, s, events);
    RunKeepsMarked(index, s, events);
    var t := After(index, s, events);
    assert BookOk(t.record.action, t.record.armed, t.closed, t.sent, t.accounted, uid);
    var book := Book(t.record.action, t.closed, uid);
    if book.Some? && !book.value.started {
      EmptyScript(book.value);
    }
  }

  /** Counters of an action that has not begun stand for no RPC at all. */
  lemma EmptyScript(a: Reservation)
    requires !(0 < a.blocks) && !a.invalidationAck && !a.cleanupAck
    ensures ScriptOf(Some(a)) == Start
  {
  }
}
