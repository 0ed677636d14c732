/**
 * Every RPC ever sent was cleared after it was armed: a second authorization, on the record as armed, found the actor,
 * the request, the clock, the quota and the chain in order.
 */
module AuthoritySends {
  import opened Common
  import opened Reservations
  import opened Lifecycle
  import opened Authority
  import opened AuthorityInvariant
  import opened AuthorityWrites
  import opened AuthorityTheorems
  import opened Outcomes

  // ---------------------------------------------------------------------------
  // What clears an RPC

  /** The request still wants this action: it is there, unfinished, acknowledged and in time. */
  predicate Wanted(a: Reservation, view: Option<Request>, env: Answers)
  {
    && env.eligible && !env.paused && env.ceilingOpen && env.now < a.expiresAt
    && a.stopReason == Running && !a.effectUncertain
    && view.Some? && view.value.kind == a.kind && view.value.deletedAt.None? && view.value.finalizer
    && !Finished(view.value.status.phase) && view.value.status.admitted == Some(a.admission)
  }

  /** The replacement so far is verified to its last block, and the node stands there. */
  predicate OnReplacement(a: Reservation, tip: Option<ChainPoint>)
  {
    && a.fork.Some? && a.invalidationAck && !a.cleanupAck
    && tip == (if a.accepted.Some? then a.accepted else a.fork)
    && tip.value.height == a.fork.value.height + a.blocks
  }

  predicate ClearsAction(a: Reservation, rpc: Rpc, view: Option<Request>, env: Answers)
  {
    && rpc.action == Some(a.request) && env.actor && env.runtimeMatches && !a.cleanupUnsafe
    && match rpc.verb
       case Wallet => false
       case Reconsider =>
         && a.kind.Reorganization? && a.invalidationAck && !a.cleanupAck && rpc.hash == a.invalidated
         && env.now < a.expiresAt + 30_000_000_000
       case Invalidate =>
         && Wanted(a, view, env) && env.reorganizationEnabled && a.kind.Reorganization? && !a.invalidationAck
         && rpc.hash == a.invalidated && a.original.Some? && env.tip == a.original
       case Generate =>
         && Wanted(a, view, env) && env.destinationValid && rpc.address == a.kind.address
         && (a.nextDispatchAt.Some? ==> a.nextDispatchAt.value <= env.now)
         && (match a.kind
             case Generation(count, _) => env.actionsEnabled && a.blocks < count
             case Reorganization(depth, _) => env.reorganizationEnabled && a.blocks <= depth && OnReplacement(a, env.tip))
  }

  predicate Clears(cur: Record, rpc: Rpc, view: Option<Request>, env: Answers)
  {
    if rpc.action.Some? then cur.action.Some? && ClearsAction(cur.action.value, rpc, view, env)
    else env.actor && env.eligible && !env.paused && (rpc.offer.Some? ==> env.offerCurrent && 1 <= rpc.offer.value.number)
  }

  /** The request that was read for the RPC. */
  function Reading(s: State, rpc: Rpc): (view: Option<Request>)
  {
    if rpc.action.Some? && rpc.action.value in s.requests && s.requests[rpc.action.value].present
    then Some(s.requests[rpc.action.value]) else None
  }

  lemma ConfirmationClears(s: State, p: nat, env: Answers)
    requires CanConfirm(s, p, env)
    ensures var pc := s.workers[p].pc; Clears(pc.cur, pc.op.rpc, Reading(s, pc.op.rpc), env)
  {
  }

  // ---------------------------------------------------------------------------
  // Over runs

  /** Event j is the confirmation by which process p cleared this very RPC. */
  ghost predicate ClearedAt(index: BlockIndex, s: State, events: seq<Event>, j: nat, p: nat, op: Armed)
  {
    j < |events| && events[j].Arms? && events[j].p == p && events[j].arm.Confirm? && Run(index, s, events[..j]) &&
    var m := After(index, s, events[..j]);
    && p in m.workers && m.workers[p].pc.Written? && m.workers[p].pc.op == op
    && Clears(m.workers[p].pc.cur, op.rpc, Reading(m, op.rpc), events[j].arm.env)
  }

  lemma ClearedStays(index: BlockIndex, s: State, events: seq<Event>, j: nat, p: nat, op: Armed)
    requires events != [] && ClearedAt(index, s, events[..|events| - 1], j, p, op)
    ensures ClearedAt(index, s, events, j, p, op)
  {
    var front := events[..|events| - 1];
    assert front[..j] == events[..j] && front[j] == events[j];
  }

  /** The process has confirmed this RPC and may still send it. */
  predicate Poised(w: Worker, op: Armed)
  {
    w.pc == Confirmed(op) || w.collector == Launched(op)
  }

  lemma OtherStepsKeepReady(index: BlockIndex, m: State, p: nat, op: Armed, q: nat, x: StepMove)
    requires StepEnabled(index, m, q, x)
    requires var t := StepApply(index, m, q, x); p in t.workers && Poised(t.workers[p], op)
    ensures p in m.workers && Poised(m.workers[p], op)
  {
  }

  lemma OtherArmsKeepReady(m: State, p: nat, op: Armed, q: nat, x: ArmMove)
    requires ArmEnabled(m, q, x) && !(q == p && x.Confirm?)
    requires var t := ArmApply(m, q, x); p in t.workers && Poised(t.workers[p], op)
    ensures p in m.workers && Poised(m.workers[p], op)
  {
  }

  lemma OtherCollectionsKeepReady(m: State, p: nat, op: Armed, q: nat, x: CollectorMove)
    requires CollectorEnabled(m, q, x)
    requires var t := CollectorApply(m, q, x); p in t.workers && Poised(t.workers[p], op)
    ensures p in m.workers && Poised(m.workers[p], op)
  {
  }

  lemma OtherChangesKeepReady(m: State, p: nat, op: Armed, x: Change)
    requires ChangeEnabled(m, x)
    requires var t := ChangeApply(m, x); p in t.workers && Poised(t.workers[p], op)
    ensures p in m.workers && Poised(m.workers[p], op)
  {
  }

  lemma OtherEventsKeepReady(index: BlockIndex, m: State, e: Event, p: nat, op: Armed)
    requires Enabled(index, m, e) && !(e.Arms? && e.p == p && e.arm.Confirm?)
    requires var t := Apply(index, m, e); p in t.workers && Poised(t.workers[p], op)
    ensures p in m.workers && Poised(m.workers[p], op)
  {
    match e {
      case Stepping(q, x) => OtherStepsKeepReady(index, m, p, op, q, x);
      case Arms(q, x) => OtherArmsKeepReady(m, p, op, q, x);
      case Collecting(q, x) => OtherCollectionsKeepReady(m, p, op, q, x);
      case Cluster(x) => OtherChangesKeepReady(m, p, op, x);
      case Lifecycle(c, x) =>
    }
  }

  /** Confirming gives this RPC its clearance, or was for another one. */
  lemma ConfirmedNow(index: BlockIndex, m: State, p: nat, env: Answers, op: Armed)
    requires Inv(index, m) && CanConfirm(m, p, env) && Poised(ArmApply(m, p, Confirm(env)).workers[p], op)
    ensures m.workers[p].pc.Written? && m.workers[p].pc.op == op
  {
    assert WorkerOk(m.workers[p], m.record, m.requests, m.closed, m.ids, m.sent, p);
  }

  lemma {:induction false} ReadyWasCleared(index: BlockIndex, s: State, events: seq<Event>, p: nat, op: Armed) returns (j: nat)
    requires Init(s) && Run(index, s, events)
    requires var t := After(index, s, events); p in t.workers && Poised(t.workers[p], op)
    ensures ClearedAt(index, s, events, j, p, op)
  {
    if events == [] {
      assert false;
    } else {
      var n := |events| - 1;
      LastEvent(index, s, events);
      var m, e := After(index, s, events[..n]), events[n];
      if e.Arms? && e.p == p && e.arm.Confirm? {
        InitHolds(index, s);
        RunKeeps(index, s, events[..n]);
        ConfirmedNow(index, m, p, e.arm.env, op);
        ConfirmationClears(m, p, e.arm.env);
        j := n;
      } else {
        OtherEventsKeepReady(index, m, e, p, op);
        j := ReadyWasCleared(index, s, events[..n], p, op);
        ClearedStays(index, s, events, j, p, op);
      }
    }
  }

  /**
   * Whenever a process sends an RPC, in any run, it confirmed that very RPC before, and what it then read clears it:
   * the right actor and runtime, the request present, unfinished, acknowledged and in time, the quota and cadence
   * open, and the chain exactly where the receipts say it is.
   */
  lemma SendsAreCleared(index: BlockIndex, s: State, events: seq<Event>, p: nat) returns (j: nat)
    requires Init(s) && Run(index, s, events) && CanDispatch(After(index, s, events), p)
    ensures ClearedAt(index, s, events, j, p, After(index, s, events).workers[p].collector.op)
  {
    var op := After(index, s, events).workers[p].collector.op;
    j := ReadyWasCleared(index, s, events, p, op);
  }

  // ---------------------------------------------------------------------------
  // Granting and giving back

  /**
   * The record is granted only when it is free, to a request that was never granted it before and that was read as
   * unfinished, undeleted, guarded by its finalizer, not yet admitted and in time, for what it asks.
   */
  lemma GrantsAreAskedFor(index: BlockIndex, s: State, p: nat, admission: Admission, now: int, tip: Option<ChainPoint>)
    requires Inv(index, s) && CanReserve(index, s, p, now, tip)
    ensures var pc := s.workers[p].pc; var t := DoReserve(index, s, p, admission, now, tip);
      && s.record.action.None? && s.record.armed.None? && pc.uid !in Members(s.reserved)
      && pc.view.Some? && pc.view.value.deletedAt.None? && !Finished(pc.view.value.status.phase) && pc.view.value.finalizer
      && pc.view.value.status.admitted.None? && now < s.requests[pc.uid].expiresAt
      && t.record.action.Some? && t.record.action.value.request == pc.uid && t.record.action.value.admission == admission
      && AsAsked(s.requests[pc.uid], t.record.action.value) && t.record.owner == Some(Finite(pc.uid))
  {
    ReserveFacts(index, s, p, now, tip);
  }

  /**
   * The record is given back only with nothing outstanding and nothing to undo, and only when the request is gone or
   * was read as finished with exactly the record's own evidence.
   */
  lemma ReleasesAreAcknowledged(index: BlockIndex, s: State, p: nat)
    requires Inv(index, s) && CanRelease(s, p)
    ensures var pc := s.workers[p].pc; var a := s.record.action; var t := DoRelease(s, p);
      && a.Some? && a.value.request == pc.uid && s.record.armed.None?
      && (a.value.kind.Reorganization? && a.value.invalidationAck ==> a.value.cleanupAck)
      && (pc.view.None? ==> !s.requests[pc.uid].present)
      && (pc.view.Some? ==>
            && Finished(pc.view.value.status.phase) && pc.view.value.status.blocks == a.value.blocks
            && pc.view.value.status.lastDispatch == a.value.lastDispatch
            && (a.value.kind.Reorganization? ==> pc.view.value.status.cleanupAck == a.value.cleanupAck))
      && t.record.action.None? && t.record.owner.None? && t.record.armed.None?
      && pc.uid in t.closed && t.closed[pc.uid] == a.value
  {
    assert WorkerOk(s.workers[p], s.record, s.requests, s.closed, s.ids, s.sent, p);
  }

  /** A finalizer is dropped only from a finished request that no record found still holds, or whose network is gone. */
  lemma FinalizersAreDroppedLast(index: BlockIndex, s: State, c: nat, on: bool, gone: bool)
    requires Inv(index, s) && CanFinalize(s, c, on, gone)
    ensures var r := s.reconciles[c]; var q := s.requests[r.uid];
      && (on ==> q.deletedAt.None? && !Finished(q.status.phase) && !q.finalizer)
      && (!on ==>
            && q.finalizer && Finished(q.status.phase) && r.Located?
            && (gone || (r.available && (r.record.None? || r.record.value.action.None? || r.record.value.action.value.request != r.uid))))
      && DoFinalize(s, c, on, gone).requests[r.uid] == q.(version := q.version + 1, finalizer := on)
  {
    assert ReconcileOk(s.reconciles[c], s.requests, s.record.action, s.record.armed, s.closed);
  }
}
