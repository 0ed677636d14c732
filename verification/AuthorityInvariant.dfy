/**
 * What every reachable state of the mutation-authority protocol satisfies. Each predicate takes only the
 * parts of the state it speaks about, so an event that leaves those parts alone keeps it for free.
 */
module AuthorityInvariant {
  import opened Common
  import opened Reservations
  import opened Lifecycle
  import opened Authority

  // ---------------------------------------------------------------------------
  // Reading the histories

  ghost function Sent(log: Log<Armed>): (r: set<Armed>)
  {
    match log
    case Start => {}
    case Then(past, op) => Sent(past) + {op}
  }

  ghost function Ids(log: Log<Armed>): (r: set<Id>)
  {
    match log
    case Start => {}
    case Then(past, op) => Ids(past) + {op.id}
  }

  /** No identifier is ever sent twice. */
  ghost predicate SentOnce(log: Log<Armed>)
  {
    match log
    case Start => true
    case Then(past, op) => SentOnce(past) && op.id !in Ids(past)
  }

  /** No offer number is ever sent twice. */
  ghost predicate OffersOnce(log: Log<Armed>)
  {
    match log
    case Start => true
    case Then(past, op) =>
      OffersOnce(past) &&
      (op.rpc.offer.Some? ==>
         forall q :: q in Sent(past) && q.rpc.offer.Some? ==> q.rpc.offer.value.number != op.rpc.offer.value.number)
  }

  ghost function Answered(log: Log<Receipt>): (r: set<Armed>)
  {
    match log
    case Start => {}
    case Then(past, receipt) => Answered(past) + {receipt.request}
  }

  /** No RPC is ever accounted twice. */
  ghost predicate AnsweredOnce(log: Log<Receipt>)
  {
    match log
    case Start => true
    case Then(past, receipt) => AnsweredOnce(past) && receipt.request !in Answered(past)
  }

  function ReceiptBlocks(receipt: Receipt): (n: int)
  {
    var rpc := receipt.request.rpc;
    if rpc.verb != Generate then 0
    else if rpc.action.Some? then 1
    else if rpc.offer.Some? then OfferBlocks(rpc.offer.value.count)
    else 0
  }

  ghost function BlockTotal(log: Log<Receipt>): (n: int)
  {
    match log
    case Start => 0
    case Then(past, receipt) => BlockTotal(past) + ReceiptBlocks(receipt)
  }

  ghost function Members(log: Log<Uid>): (r: set<Uid>)
  {
    match log
    case Start => {}
    case Then(past, uid) => Members(past) + {uid}
  }

  ghost predicate Once(log: Log<Uid>)
  {
    match log
    case Start => true
    case Then(past, uid) => Once(past) && uid !in Members(past)
  }

  /** One RPC of a finite action, as an observer of the node sees it. */
  datatype Token = Mined | Invalidated(hash: string) | Reconsidered(hash: string) | Other

  function TokenOf(rpc: Rpc): (t: Token)
  {
    match rpc.verb
    case Generate => Mined
    case Invalidate => Invalidated(rpc.hash)
    case Reconsider => Reconsidered(rpc.hash)
    case Wallet => Other
  }

  /** The RPCs sent for one request, in order. */
  ghost function SentFor(log: Log<Armed>, uid: Uid): (r: Log<Token>)
  {
    match log
    case Start => Start
    case Then(past, op) =>
      if op.rpc.action == Some(uid) then Then(SentFor(past, uid), TokenOf(op.rpc)) else SentFor(past, uid)
  }

  /** The RPCs whose receipts are recorded for one request, in order. */
  ghost function AnsweredFor(log: Log<Receipt>, uid: Uid): (r: Log<Token>)
  {
    match log
    case Start => Start
    case Then(past, receipt) =>
      if receipt.request.rpc.action == Some(uid) then Then(AnsweredFor(past, uid), TokenOf(receipt.request.rpc))
      else AnsweredFor(past, uid)
  }

  ghost function Mines(base: Log<Token>, n: nat): (r: Log<Token>)
  {
    if n == 0 then base else Then(Mines(base, n - 1), Mined)
  }

  /** The only RPC history a reservation's counters can stand for. */
  ghost function Script(kind: Kind, hash: string, invalidated: bool, blocks: int, reconsidered: bool): (r: Log<Token>)
  {
    var n := if blocks < 0 then 0 else blocks;
    if kind.Generation? then Mines(Start, n)
    else
      var head := if invalidated then Then(Start, Invalidated(hash)) else Start;
      var body := Mines(head, n);
      if reconsidered then Then(body, Reconsidered(hash)) else body
  }

  ghost function ScriptOf(book: Option<Reservation>): (r: Log<Token>)
  {
    match book
    case None => Start
    case Some(a) => Script(a.kind, a.invalidated, a.invalidationAck, a.blocks, a.cleanupAck)
  }

  /** The reservation a request holds, or last held. */
  ghost function Book(action: Option<Reservation>, closed: map<Uid, Reservation>, uid: Uid): (r: Option<Reservation>)
  {
    if action.Some? && action.value.request == uid then action
    else if uid in closed then Some(closed[uid])
    else None
  }

  // ---------------------------------------------------------------------------
  // The record

  /** Everything sent and not yet accounted is the one RPC held in the slot. */
  ghost predicate SlotOk(armed: Option<Armed>, ids: set<Id>, sent: Log<Armed>, accounted: Log<Receipt>)
  {
    && SentOnce(sent) && AnsweredOnce(accounted)
    && Ids(sent) <= ids
    && Answered(accounted) <= Sent(sent)
    && Sent(sent) - Answered(accounted) <= (if armed.Some? then {armed.value} else {})
    && (armed.Some? ==> armed.value.id in ids && armed.value !in Answered(accounted))
  }

  ghost predicate TotalsOk(armed: Option<Armed>, completed: int, blocks: int, sent: Log<Armed>, accounted: Log<Receipt>)
  {
    && blocks == BlockTotal(accounted)
    && OffersOnce(sent)
    && (forall op :: op in Sent(sent) && op.rpc.offer.Some? ==> op.rpc.offer.value.number <= completed || armed == Some(op))
    && (armed.Some? && armed.value.rpc.offer.Some? ==> completed < armed.value.rpc.offer.value.number)
  }

  ghost predicate ReservationOk(index: BlockIndex, a: Reservation)
  {
    && 0 <= a.blocks <= Quota(a.kind)
    && (a.kind.Generation? ==> !a.invalidationAck && !a.cleanupAck)
    && (!a.invalidationAck && a.kind.Reorganization? ==> a.blocks == 0 && !a.cleanupAck)
    && ChainSound(index, a)
  }

  /** The outstanding RPC is one the reservation's counters still allow. */
  ghost predicate Fits(action: Option<Reservation>, rpc: Rpc)
  {
    match rpc.action
    case None => (rpc.verb == Wallet && rpc.offer.None?) || (rpc.verb == Generate && rpc.offer.Some?)
    case Some(uid) =>
      && action.Some? && action.value.request == uid && rpc.offer.None?
      && var a := action.value;
         match rpc.verb
         case Wallet => false
         case Generate => a.blocks < Quota(a.kind) && (a.kind.Reorganization? ==> a.invalidationAck && !a.cleanupAck)
         case Invalidate => a.kind.Reorganization? && !a.invalidationAck && rpc.hash == a.invalidated
         case Reconsider => a.kind.Reorganization? && a.invalidationAck && !a.cleanupAck && rpc.hash == a.invalidated
  }

  ghost predicate RecordOk(index: BlockIndex, record: Record, closed: map<Uid, Reservation>)
  {
    && (record.action.Some? ==>
          && ReservationOk(index, record.action.value)
          && record.owner == Some(Finite(record.action.value.request))
          && record.action.value.request !in closed)
    && (record.action.None? ==> record.owner.None? || record.owner == Some(Initialization))
    && (record.armed.Some? ==> Fits(record.action, record.armed.value.rpc))
  }

  ghost predicate ClosedOk(index: BlockIndex, closed: map<Uid, Reservation>)
  {
    forall uid :: uid in closed ==> closed[uid].request == uid && ReservationOk(index, closed[uid])
  }

  ghost predicate ArmedFor(armed: Option<Armed>, uid: Uid)
  {
    armed.Some? && armed.value.rpc.action == Some(uid)
  }

  /** The histories of one request agree with its counters, the outstanding RPC included. */
  ghost predicate BookOk(action: Option<Reservation>, armed: Option<Armed>, closed: map<Uid, Reservation>,
                         sent: Log<Armed>, accounted: Log<Receipt>, uid: Uid)
  {
    var script := ScriptOf(Book(action, closed, uid));
    && AnsweredFor(accounted, uid) == script
    && SentFor(sent, uid) ==
         (if ArmedFor(armed, uid) && armed.value in Sent(sent) then Then(script, TokenOf(armed.value.rpc)) else script)
  }

  ghost predicate ReservedOk(reserved: Log<Uid>, action: Option<Reservation>, closed: map<Uid, Reservation>)
  {
    && Once(reserved)
    && Members(reserved) == closed.Keys + (if action.Some? then {action.value.request} else {})
  }

  // ---------------------------------------------------------------------------
  // Requests

  /** No further RPC can follow: all receipts are in, or the action stopped with nothing left to undo. */
  predicate Halted(a: Reservation)
  {
    Complete(a) || (a.stopReason != Running && (a.kind.Reorganization? && a.invalidationAck ==> a.cleanupAck))
  }

  ghost predicate Rested(book: Option<Reservation>, armed: Option<Armed>, uid: Uid)
  {
    book.Some? && Halted(book.value) && !ArmedFor(armed, uid)
  }

  ghost predicate Delivered(book: Option<Reservation>, armed: Option<Armed>, uid: Uid)
  {
    book.Some? && Complete(book.value) && !ArmedFor(armed, uid)
  }

  ghost predicate OutcomeOk(status: Status, book: Option<Reservation>, armed: Option<Armed>, uid: Uid)
  {
    && (status.phase == Completed ==> Delivered(book, armed, uid))
    && (status.phase == Failed && status.reason != NoDispatch ==> Rested(book, armed, uid))
  }

  ghost predicate Live(requests: map<Uid, Request>, uid: Uid)
  {
    uid in requests && requests[uid].status.admitted.Some? && !NoDispatched(requests[uid].status)
  }

  /** A reservation is for what the request asked, under the request's own deadline. */
  predicate AsAsked(q: Request, a: Reservation)
  {
    q.kind == a.kind && q.expiresAt == a.expiresAt
  }

  ghost predicate RequestOk(requests: map<Uid, Request>, action: Option<Reservation>, armed: Option<Armed>,
                            closed: map<Uid, Reservation>, sent: Log<Armed>, uid: Uid)
  {
    && (SentFor(sent, uid) != Start ==> Live(requests, uid))
    && (uid in closed ==> uid in requests && (Terminal(requests[uid].status.phase) || !requests[uid].present))
    && (action.Some? && action.value.request == uid ==> uid in requests && AsAsked(requests[uid], action.value))
    && (uid in closed ==> uid in requests && AsAsked(requests[uid], closed[uid]))
    && (uid in requests ==> OutcomeOk(requests[uid].status, Book(action, closed, uid), armed, uid))
  }

  // ---------------------------------------------------------------------------
  // Processes

  /** A snapshot is the record itself as long as the version has not moved. */
  ghost predicate Fresh(snap: Record, record: Record)
  {
    snap.version <= record.version && (snap.version == record.version ==> snap == record)
  }

  /** An RPC only this process may still send. */
  ghost predicate Owned(op: Armed, record: Record, ids: set<Id>, sentIds: set<Id>, p: nat)
  {
    record.armed == Some(op) && op.id in ids && op.id !in sentIds && op.id.process == p
  }

  ghost predicate Cleared(op: Armed, requests: map<Uid, Request>)
  {
    op.rpc.action.Some? && op.rpc.verb != Reconsider ==> Live(requests, op.rpc.action.value)
  }

  /** What a passed authorization establishes about the record it was computed from. */
  ghost predicate Permits(cur: Record, rpc: Rpc)
  {
    && Fits(cur.action, rpc)
    && (rpc.action.Some? && rpc.verb != Reconsider ==> cur.action.value.stopReason == Running)
  }

  ghost predicate ViewOk(snap: Record, uid: Uid, view: Option<Request>, record: Record,
                         requests: map<Uid, Request>, closed: map<Uid, Reservation>)
  {
    && Fresh(snap, record) && uid in requests
    && (view.Some? ==> Extends(view.value, requests[uid]))
    && (view.None? ==> !requests[uid].present)
    && (snap.version == record.version && view.Some? && !Terminal(view.value.status.phase) ==> uid !in closed)
  }

  ghost predicate PcOk(pc: Pc, record: Record, requests: map<Uid, Request>, closed: map<Uid, Reservation>,
                       ids: set<Id>, sentIds: set<Id>, p: nat)
  {
    match pc
    case Ready => true
    case Read(snap) => Fresh(snap, record)
    case Viewed(snap, uid, view) => ViewOk(snap, uid, view, record, requests, closed)
    case Claimed(rpc) => Shaped(rpc)
    case Current(rpc, cur) => Shaped(rpc) && Fresh(cur, record) && cur.armed.None?
    case Authorized(rpc, cur) => Fresh(cur, record) && cur.armed.None? && Permits(cur, rpc)
    case Written(op, cur) => Owned(op, record, ids, sentIds, p)
    case Confirmed(op) => Owned(op, record, ids, sentIds, p) && Cleared(op, requests)
    case Refusing(op, _) => op.id in ids && op.id !in sentIds && op.id.process == p
    case Retracting(op, _, cur) =>
      op.id in ids && op.id !in sentIds && op.id.process == p && Fresh(cur, record) && cur.armed == Some(op)
  }

  /** Operations a step hands to arm always carry either an action or, for generation, an offer. */
  ghost predicate Shaped(rpc: Rpc)
  {
    if rpc.action.Some? then rpc.offer.None?
    else (rpc.verb == Wallet && rpc.offer.None?) || (rpc.verb == Generate && rpc.offer.Some?)
  }

  ghost predicate CollectorOk(c: Collector, record: Record, requests: map<Uid, Request>,
                              ids: set<Id>, sent: Log<Armed>, p: nat)
  {
    match c
    case Quiet => true
    case Launched(op) => Owned(op, record, ids, Ids(sent), p) && Cleared(op, requests)
    case InFlight(op) => op in Sent(sent)
    case Holding(receipt) => receipt.request in Sent(sent)
    case Collected(receipt, cur) => receipt.request in Sent(sent) && Fresh(cur, record)
  }

  ghost predicate WorkerOk(w: Worker, record: Record, requests: map<Uid, Request>, closed: map<Uid, Reservation>,
                           ids: set<Id>, sent: Log<Armed>, p: nat)
  {
    && PcOk(w.pc, record, requests, closed, ids, Ids(sent), p)
    && CollectorOk(w.collector, record, requests, ids, sent, p)
    && (!w.collector.Quiet? ==> w.active && !Arming(w.pc))
    && (Arming(w.pc) ==> w.active)
  }

  /** A reconcile's reading of the record, however old, still bounds what may be claimed now. */
  ghost predicate ReconcileOk(r: Reconcile, requests: map<Uid, Request>, action: Option<Reservation>,
                              armed: Option<Armed>, closed: map<Uid, Reservation>)
  {
    && r.uid in requests && Extends(r.held, requests[r.uid])
    && (r.Located? && BoundTo(r.record, r.uid).Some? && r.record.value.armed.None? ==>
          && (Complete(BoundTo(r.record, r.uid).value) ==> Delivered(Book(action, closed, r.uid), armed, r.uid))
          && (Halted(BoundTo(r.record, r.uid).value) ==> Rested(Book(action, closed, r.uid), armed, r.uid)))
  }

  // ---------------------------------------------------------------------------
  // Together

  ghost predicate HistoryOk(index: BlockIndex, s: State)
  {
    && SlotOk(s.record.armed, s.ids, s.sent, s.accounted)
    && TotalsOk(s.record.armed, s.record.completed, s.record.blocks, s.sent, s.accounted)
    && RecordOk(index, s.record, s.closed)
    && ClosedOk(index, s.closed)
    && ReservedOk(s.reserved, s.record.action, s.closed)
  }

  ghost predicate BooksOk(s: State)
  {
    forall uid :: BookOk(s.record.action, s.record.armed, s.closed, s.sent, s.accounted, uid)
  }

  ghost predicate RequestsOk(s: State)
  {
    forall uid :: RequestOk(s.requests, s.record.action, s.record.armed, s.closed, s.sent, uid)
  }

  ghost predicate WorkersOk(s: State)
  {
    forall p :: p in s.workers ==> WorkerOk(s.workers[p], s.record, s.requests, s.closed, s.ids, s.sent, p)
  }

  ghost predicate ReconcilesOk(s: State)
  {
    forall c :: c in s.reconciles ==> ReconcileOk(s.reconciles[c], s.requests, s.record.action, s.record.armed, s.closed)
  }

  ghost predicate Inv(index: BlockIndex, s: State)
  {
    HistoryOk(index, s) && BooksOk(s) && RequestsOk(s) && WorkersOk(s) && ReconcilesOk(s)
  }
}
