/**
 * The mutation-authority protocol on one execution record, as a transition system.
 *
 * Any number of worker processes, lifecycle reconciles and environment changes interleave. Each event
 * below is one API call or one local decision of the source. A status write succeeds only on the version
 * it was computed from, and a successful write may still lose its acknowledgement. A process may stop at
 * any point, any read may fail (the caller then abandons its attempt), and an RPC's response may be lost.
 * Clocks, actor identity and admission answers are parameters of the events: they may change between any
 * two reads.
 */
module Authority {
  import opened Common
  import opened Reservations
  import opened Lifecycle

  // ---------------------------------------------------------------------------
  // Data

  datatype Offer = Offer(number: int, count: int, terms: nat)

  datatype Owner = Initialization | Finite(request: Uid)

  /** A native mutation before it is armed. `Wallet` stands for create, load, import and unload. */
  datatype Rpc = Rpc(verb: Verb, action: Option<Uid>, offer: Option<Offer>, hash: string, address: nat)

  datatype Armed = Armed(id: Id, rpc: Rpc)

  datatype Receipt = Receipt(request: Armed, hash: string, receivedAt: int)

  /** One BitcoinExecution; `note` stands for observation, pause and drain fields, which grant nothing. */
  datatype Record = Record(
    version: nat,
    offer: Option<Offer>,
    armed: Option<Armed>,
    owner: Option<Owner>,
    action: Option<Reservation>,
    receipt: Option<Receipt>,
    completed: int,
    blocks: int,
    note: nat)

  /** Where a worker's step stands; snapshots are the record or request as that step last read it. */
  datatype Pc =
    | Ready
    | Read(snap: Record)
    | Viewed(snap: Record, uid: Uid, view: Option<Request>)
    | Claimed(rpc: Rpc)
    | Current(rpc: Rpc, cur: Record)
    | Authorized(rpc: Rpc, cur: Record)
    | Written(op: Armed, cur: Record)
    | Confirmed(op: Armed)
    | Refusing(op: Armed, reason: StopReason)
    | Retracting(op: Armed, reason: StopReason, cur: Record)

  /** The receipt collector that outlives its step. */
  datatype Collector =
    | Quiet
    | Launched(op: Armed)
    | InFlight(op: Armed)
    | Holding(receipt: Receipt)
    | Collected(receipt: Receipt, cur: Record)

  datatype Worker = Worker(active: bool, closed: bool, pc: Pc, collector: Collector)

  /** One lifecycle reconcile in progress. */
  datatype Reconcile =
    | Holds(uid: Uid, held: Request)
    | Located(uid: Uid, held: Request, record: Option<Record>, available: bool)

  /**
   * `sent`, `accounted`, `reserved` and `closed` are history: RPCs issued, receipts recorded, reservations
   * granted, and each released reservation as it was last.
   */
  datatype State = State(
    record: Record,
    requests: map<Uid, Request>,
    workers: map<nat, Worker>,
    reconciles: map<nat, Reconcile>,
    processes: set<nat>,
    ids: set<Id>,
    sent: Log<Armed>,
    accounted: Log<Receipt>,
    reserved: Log<Uid>,
    closed: map<Uid, Reservation>)

  /** The record as created: nothing reserved, nothing armed. */
  predicate Init(s: State)
  {
    s == State(Record(0, None, None, None, None, None, 0, 0, s.record.note), map[], map[], map[], {}, {}, Start, Start, Start, map[])
  }

  // ---------------------------------------------------------------------------
  // Decisions

  /** Answers of the cluster and of Core that a decision reads. */
  datatype Answers = Answers(
    actor: bool, runtimeMatches: bool, eligible: bool, paused: bool, now: int,
    actionsEnabled: bool, reorganizationEnabled: bool,
    tip: Option<ChainPoint>, ceilingOpen: bool, destinationValid: bool, offerCurrent: bool)

  /** actionAdmissionAcknowledged: the request retains this very admission. */
  predicate Acknowledged(view: Request, a: Reservation)
  {
    view.finalizer && view.status.admitted == Some(a.admission)
  }

  /** reorganizationPreflight: the tip is where the receipts say it is. */
  predicate TipUnmoved(a: Reservation, replacing: bool, tip: Option<ChainPoint>)
  {
    var expected := if replacing then Tip(a) else a.original;
    expected.Some? && tip == expected &&
    (replacing ==> a.fork.Some? && expected.value.height - a.fork.value.height == a.blocks)
  }

  /** authorizeMutation for a finite action; `view` is the request as read, None when absent or replaced. */
  predicate AuthorizesAction(record: Record, rpc: Rpc, view: Option<Request>, env: Answers)
  {
    record.action.Some? && rpc.action.Some? &&
    var a := record.action.value;
    && a.request == rpc.action.value && record.owner == Some(Finite(a.request)) && !a.cleanupUnsafe
    && env.actor && env.runtimeMatches
    && if rpc.verb == Reconsider then
         && a.kind.Reorganization? && a.invalidationAck && !a.cleanupAck
         && rpc.hash == a.invalidated && env.now < a.expiresAt + CLEANUP_HORIZON
       else
         && (if a.kind.Generation? then env.actionsEnabled else env.reorganizationEnabled)
         && env.eligible && !env.paused && a.stopReason == Running && !a.effectUncertain && env.now < a.expiresAt
         && view.Some? && view.value.kind == a.kind && view.value.deletedAt.None?
         && !Terminal(view.value.status.phase) && Acknowledged(view.value, a)
         && (match rpc.verb
             case Invalidate =>
               a.kind.Reorganization? && !a.invalidationAck && rpc.hash == a.invalidated && TipUnmoved(a, false, env.tip)
             case Generate =>
               && a.blocks < Quota(a.kind) && rpc.address == a.kind.address
               && (a.nextDispatchAt.None? || a.nextDispatchAt.value <= env.now)
               && (a.kind.Reorganization? ==> a.invalidationAck && !a.cleanupAck && TipUnmoved(a, true, env.tip))
               && env.destinationValid
             case _ => false)
         && env.ceilingOpen
  }

  /** authorizeMutation, and for offers authorizeOffer. */
  predicate Authorizes(record: Record, rpc: Rpc, view: Option<Request>, env: Answers)
  {
    if rpc.action.Some? then AuthorizesAction(record, rpc, view, env)
    else env.actor && env.eligible && !env.paused && (rpc.offer.Some? ==> env.offerCurrent && 1 <= rpc.offer.value.number)
  }

  /** The exclusion checks of arm between its authorization and its write. */
  predicate SlotFree(record: Record, rpc: Rpc)
  {
    && record.armed.None?
    && (record.owner.None? || record.owner == Some(OwnerOf(rpc)))
    && (rpc.offer.Some? ==> record.offer == rpc.offer && record.completed < rpc.offer.value.number)
  }

  function OwnerOf(rpc: Rpc): (o: Owner)
  {
    if rpc.action.Some? then Finite(rpc.action.value) else Initialization
  }

  /** The operations a step may hand to arm, given the record it read. */
  predicate Chooses(snap: Record, rpc: Rpc)
  {
    && snap.armed.None?
    && match snap.action
       case None =>
         && rpc.action.None?
         && ((rpc.verb == Wallet && rpc.offer.None?) ||
             (rpc.verb == Generate && rpc.offer.Some? && rpc.offer == snap.offer && snap.completed < rpc.offer.value.number))
       case Some(a) =>
         && rpc.action == Some(a.request) && rpc.offer.None?
         && match a.kind
            case Generation(count, _) =>
              rpc.verb == Generate && a.stopReason == Running && !a.effectUncertain && a.blocks < count
            case Reorganization(depth, _) =>
              var cleanup := a.invalidationAck && (a.stopReason != Running || a.effectUncertain || depth + 1 <= a.blocks);
              && a.final.None? && !a.cleanupAck
              && rpc.verb == (if cleanup then Reconsider else if a.invalidationAck then Generate else Invalidate)
  }

  /** selectAction's last read of a candidate. */
  predicate Eligible(view: Option<Request>, now: int)
  {
    view.Some? && view.value.deletedAt.None? && !Terminal(view.value.status.phase) &&
    view.value.status.admitted.None? && view.value.finalizer && now < view.value.expiresAt &&
    (view.value.kind.Generation? ==> 1 <= view.value.kind.count <= 100)
  }

  /** stepAction's test for giving the record back. */
  predicate Releasable(a: Reservation, view: Option<Request>)
  {
    && (a.kind.Reorganization? && a.invalidationAck ==> a.cleanupAck)
    && (view.Some? ==>
          && Terminal(view.value.status.phase)
          && view.value.status.lastDispatch == a.lastDispatch
          && view.value.status.blocks == a.blocks
          && (a.kind.Reorganization? ==> view.value.status.cleanupAck == a.cleanupAck))
  }

  function BoundTo(record: Option<Record>, uid: Uid): (r: Option<Reservation>)
  {
    if record.Some? && record.value.action.Some? && record.value.action.value.request == uid
    then record.value.action else None
  }

  function ArmedVerb(record: Option<Record>): (o: Outstanding)
  {
    if record.Some? && record.value.armed.Some? then Outstanding(record.value.armed.value.rpc.verb) else Nothing
  }

  /** A request as an API read returns it: None when absent or when the name now belongs to another UID. */
  function ReadRequest(s: State, uid: Uid): (r: Option<Request>)
  {
    if uid in s.requests && s.requests[uid].present then Some(s.requests[uid]) else None
  }

  /** The record after account: the receipt, the freed slot and the counters, in one write. */
  function Accounted(cur: Record, receipt: Receipt, delay: Option<int>): (r: Option<Record>)
    requires cur.armed == Some(receipt.request)
  {
    var rpc := receipt.request.rpc;
    var base := cur.(version := cur.version + 1, receipt := Some(receipt), armed := None);
    if rpc.action.Some? then
      if cur.action.None? || cur.action.value.request != rpc.action.value then None
      else
        match AccountReceipt(cur.action.value, rpc.verb, receipt.request.id, receipt.hash, receipt.receivedAt, delay)
        case None => None
        case Some(a) => Some(base.(action := Some(a), blocks := cur.blocks + (if rpc.verb == Generate then 1 else 0)))
    else if rpc.verb == Generate && rpc.offer.Some? then
      Some(base.(blocks := cur.blocks + OfferBlocks(rpc.offer.value.count), completed := rpc.offer.value.number))
    else Some(base)
  }

  // ---------------------------------------------------------------------------
  // Events

  datatype Ack = Received | Lost

  /** Reads and writes of one worker step outside arm. */
  datatype StepMove =
    | Fetch
    | Look(uid: Uid)
    | Note(note: nat, ack: Ack)
    | Reserve(admission: Admission, now: int, tip: Option<ChainPoint>)
    | Release
    | Halt(reason: StopReason, uncertain: bool, unsafe: bool)
    | Verify
    | Settle(positions: seq<string>, point: ChainPoint)
    | Abandon

  /** The moves of arm and withdraw. */
  datatype ArmMove =
    | Claim(rpc: Rpc)
    | Recheck
    | Authorize(env: Answers)
    | Arm(nonce: nat, ack: Ack)
    | Confirm(env: Answers)
    | Refuse(reason: StopReason)
    | Reread
    | Withdraw
    | Launch

  /** The moves of collect and account. */
  datatype CollectorMove =
    | Dispatch
    | Respond(hash: string, at: int)
    | Drop
    | Collect
    | Account(delay: Option<int>, ack: Ack)
    | Done
    | Retry

  /** Process starts and ends, the scheduler's published offer, and requests coming and going. */
  datatype Change =
    | Spawn(process: nat)
    | Crash(process: nat)
    | Close(process: nat)
    | Publish(offer: Offer)
    | Create(uid: Uid, kind: Kind, expiresAt: int)
    | Delete(uid: Uid, at: int)
    | Remove(uid: Uid)

  /** The moves of a lifecycle reconcile. */
  datatype LifecycleMove =
    | Observe(uid: Uid)
    | Locate(found: bool, available: bool)
    | Judge(gone: bool, now: int)
    | Finalize(on: bool, gone: bool)
    | Leave

  datatype Event =
    | Stepping(p: nat, step: StepMove)
    | Arms(p: nat, arm: ArmMove)
    | Collecting(p: nat, collect: CollectorMove)
    | Cluster(change: Change)
    | Lifecycle(c: nat, judge: LifecycleMove)

  /** Program points at which a step holds the local send slot. */
  predicate Arming(pc: Pc)
  {
    pc.Claimed? || pc.Current? || pc.Authorized? || pc.Written? || pc.Confirmed? || pc.Refusing? || pc.Retracting?
  }

  function SetPc(s: State, p: nat, pc: Pc): (t: State)
    requires p in s.workers
  {
    s.(workers := s.workers[p := s.workers[p].(pc := pc)])
  }

  /** The step returns; a step inside arm releases the slot it reserved. */
  function Return(w: Worker): (r: Worker)
  {
    w.(pc := Ready, active := if Arming(w.pc) then false else w.active)
  }

  function SetCollector(s: State, p: nat, collector: Collector): (t: State)
    requires p in s.workers
  {
    s.(workers := s.workers[p := s.workers[p].(collector := collector)])
  }

  /** Collection ends; the slot is released. */
  function EndCollection(s: State, p: nat): (t: State)
    requires p in s.workers
  {
    s.(workers := s.workers[p := s.workers[p].(collector := Quiet, active := false)])
  }

  /** The write a step at `p` makes from the snapshot it holds, after which the step returns. */
  function WriteAndReturn(s: State, p: nat, next: Record): (t: State)
    requires p in s.workers
  {
    s.(record := next, workers := s.workers[p := Return(s.workers[p])])
  }

  function Snapshot(pc: Pc): (r: Option<Record>)
  {
    match pc
    case Read(snap) => Some(snap)
    case Viewed(snap, _, _) => Some(snap)
    case _ => None
  }

  /** The step at `p` holds an unchanged record carrying a reservation. */
  predicate HoldsAction(s: State, p: nat)
  {
    p in s.workers && Snapshot(s.workers[p].pc).Some? &&
    Snapshot(s.workers[p].pc).value.version == s.record.version && Snapshot(s.workers[p].pc).value.action.Some?
  }

  function Bumped(r: Record): (n: Record)
  {
    r.(version := r.version + 1)
  }

  function Withdrawn(cur: Record, reason: StopReason): (r: Record)
  {
    Bumped(cur).(armed := None,
                 action := if reason != Running && cur.action.Some? then Some(Stop(cur.action.value, reason, false, false)) else cur.action)
  }

  /** The record a successful arm writes. */
  function ArmedRecord(cur: Record, op: Armed): (r: Record)
  {
    Bumped(cur).(armed := Some(op), owner := Some(OwnerOf(op.rpc)),
                 action := if op.rpc.action.Some? && cur.action.Some? then Some(cur.action.value.(started := true)) else cur.action)
  }

  function NewReservation(index: BlockIndex, snap: Record, uid: Uid, view: Request, admission: Admission, tip: Option<ChainPoint>)
    : (a: Reservation)
    requires view.kind.Reorganization? ==> tip.Some? && Capture(index, view.kind.depth, tip.value).Some?
  {
    Reserved(uid, view.kind, admission, view.expiresAt, tip,
             if view.kind.Reorganization? then Capture(index, view.kind.depth, tip.value) else None)
  }

  // Step events -----------------------------------------------------------------

  predicate CanReserve(index: BlockIndex, s: State, p: nat, now: int, tip: Option<ChainPoint>)
  {
    p in s.workers && s.workers[p].pc.Viewed? &&
    var pc := s.workers[p].pc;
    && pc.snap.version == s.record.version
    && pc.snap.action.None? && pc.snap.armed.None?
    && (pc.snap.owner.None? || pc.snap.owner == Some(Initialization))
    && Eligible(pc.view, now)
    && (pc.view.value.kind.Reorganization? ==>
          tip.Some? && Header(index, tip.value.hash) == tip && Capture(index, pc.view.value.kind.depth, tip.value).Some?)
  }

  function DoReserve(index: BlockIndex, s: State, p: nat, admission: Admission, now: int, tip: Option<ChainPoint>): (t: State)
    requires CanReserve(index, s, p, now, tip)
  {
    var pc := s.workers[p].pc;
    var a := NewReservation(index, pc.snap, pc.uid, pc.view.value, admission, tip);
    WriteAndReturn(s, p, Bumped(pc.snap).(action := Some(a), owner := Some(Finite(pc.uid))))
      .(reserved := Then(s.reserved, pc.uid))
  }

  predicate CanRelease(s: State, p: nat)
  {
    p in s.workers && s.workers[p].pc.Viewed? &&
    var pc := s.workers[p].pc;
    && pc.snap.version == s.record.version
    && pc.snap.action.Some? && pc.snap.action.value.request == pc.uid
    && pc.snap.armed.None? && Releasable(pc.snap.action.value, pc.view)
  }

  function DoRelease(s: State, p: nat): (t: State)
    requires CanRelease(s, p)
  {
    var pc := s.workers[p].pc;
    WriteAndReturn(s, p, Bumped(pc.snap).(action := None, owner := None))
      .(closed := s.closed[pc.uid := pc.snap.action.value])
  }

  function DoHalt(s: State, p: nat, reason: StopReason, uncertain: bool, unsafe: bool): (t: State)
    requires HoldsAction(s, p)
  {
    var snap := Snapshot(s.workers[p].pc).value;
    WriteAndReturn(s, p, Bumped(snap).(action := Some(Stop(snap.action.value, reason, uncertain, unsafe))))
  }

  predicate CanVerify(index: BlockIndex, s: State, p: nat)
  {
    HoldsAction(s, p) &&
    var snap := Snapshot(s.workers[p].pc).value;
    var a := snap.action.value;
    snap.armed.None? && a.kind.Reorganization? && a.final.None? && a.invalidationAck && a.stopReason == Running &&
    VerifyReplacement(index, a).Accepted?
  }

  function DoVerify(index: BlockIndex, s: State, p: nat): (t: State)
    requires CanVerify(index, s, p)
  {
    var snap := Snapshot(s.workers[p].pc).value;
    WriteAndReturn(s, p, Bumped(snap).(action := Some(VerifyReplacement(index, snap.action.value).next)))
  }

  predicate CanSettle(index: BlockIndex, s: State, p: nat, positions: seq<string>, tip: ChainPoint)
  {
    HoldsAction(s, p) &&
    Snapshot(s.workers[p].pc).value.armed.None? &&
    Finish(index, Snapshot(s.workers[p].pc).value.action.value, positions, tip).Some?
  }

  function DoSettle(index: BlockIndex, s: State, p: nat, positions: seq<string>, tip: ChainPoint): (t: State)
    requires CanSettle(index, s, p, positions, tip)
  {
    var snap := Snapshot(s.workers[p].pc).value;
    WriteAndReturn(s, p, Bumped(snap).(action := Finish(index, snap.action.value, positions, tip)))
  }

  predicate CanNote(s: State, p: nat)
  {
    p in s.workers && Snapshot(s.workers[p].pc).Some? && Snapshot(s.workers[p].pc).value.version == s.record.version
  }

  function DoNote(s: State, p: nat, note: nat, ack: Ack): (t: State)
    requires CanNote(s, p)
  {
    var next := Bumped(Snapshot(s.workers[p].pc).value).(note := note);
    if ack.Received? then s.(record := next, workers := s.workers[p := s.workers[p].(pc := Read(next))])
    else WriteAndReturn(s, p, next)
  }

  predicate CanLook(s: State, p: nat, uid: Uid)
  {
    p in s.workers && s.workers[p].pc.Read? && uid in s.requests &&
    (s.workers[p].pc.snap.action.Some? ==> uid == s.workers[p].pc.snap.action.value.request)
  }

  // Arming events -----------------------------------------------------------------

  predicate CanClaim(s: State, p: nat, rpc: Rpc)
  {
    p in s.workers && Snapshot(s.workers[p].pc).Some? && Chooses(Snapshot(s.workers[p].pc).value, rpc) &&
    !s.workers[p].active && !s.workers[p].closed
  }

  function DoClaim(s: State, p: nat, rpc: Rpc): (t: State)
    requires CanClaim(s, p, rpc)
  {
    s.(workers := s.workers[p := s.workers[p].(pc := Claimed(rpc), active := true)])
  }

  predicate CanRecheck(s: State, p: nat)
  {
    p in s.workers && s.workers[p].pc.Claimed? && s.record.armed.None?
  }

  predicate CanAuthorize(s: State, p: nat, env: Answers)
  {
    p in s.workers && s.workers[p].pc.Current? &&
    var pc := s.workers[p].pc;
    Authorizes(pc.cur, pc.rpc, if pc.rpc.action.Some? then ReadRequest(s, pc.rpc.action.value) else None, env)
  }

  predicate CanArm(s: State, p: nat, nonce: nat)
  {
    p in s.workers && s.workers[p].pc.Authorized? &&
    s.workers[p].pc.cur.version == s.record.version && SlotFree(s.workers[p].pc.cur, s.workers[p].pc.rpc) &&
    Id(p, nonce) !in s.ids
  }

  function DoArm(s: State, p: nat, nonce: nat, ack: Ack): (t: State)
    requires CanArm(s, p, nonce)
  {
    var pc := s.workers[p].pc;
    var op := Armed(Id(p, nonce), pc.rpc);
    var next := ArmedRecord(pc.cur, op);
    var w := if ack.Received? then s.workers[p].(pc := Written(op, next)) else Return(s.workers[p]);
    s.(record := next, ids := s.ids + {op.id}, workers := s.workers[p := w])
  }

  predicate CanConfirm(s: State, p: nat, env: Answers)
  {
    p in s.workers && s.workers[p].pc.Written? &&
    var pc := s.workers[p].pc;
    Authorizes(pc.cur, pc.op.rpc, if pc.op.rpc.action.Some? then ReadRequest(s, pc.op.rpc.action.value) else None, env)
  }

  predicate CanRefuse(s: State, p: nat)
  {
    p in s.workers && (s.workers[p].pc.Written? || s.workers[p].pc.Confirmed?)
  }

  predicate CanReread(s: State, p: nat)
  {
    p in s.workers && s.workers[p].pc.Refusing? && s.record.armed == Some(s.workers[p].pc.op)
  }

  predicate CanWithdraw(s: State, p: nat)
  {
    p in s.workers && s.workers[p].pc.Retracting? && s.workers[p].pc.cur.version == s.record.version
  }

  predicate CanLaunch(s: State, p: nat)
  {
    p in s.workers && s.workers[p].pc.Confirmed? && !s.workers[p].closed
  }

  function DoLaunch(s: State, p: nat): (t: State)
    requires CanLaunch(s, p)
  {
    s.(workers := s.workers[p := s.workers[p].(pc := Ready, collector := Launched(s.workers[p].pc.op))])
  }

  // Collector events -----------------------------------------------------------------

  predicate CanDispatch(s: State, p: nat)
  {
    p in s.workers && s.workers[p].collector.Launched?
  }

  function DoDispatch(s: State, p: nat): (t: State)
    requires CanDispatch(s, p)
  {
    var op := s.workers[p].collector.op;
    SetCollector(s, p, InFlight(op)).(sent := Then(s.sent, op))
  }

  predicate CanAccount(s: State, p: nat, delay: Option<int>)
  {
    p in s.workers && s.workers[p].collector.Collected? &&
    var c := s.workers[p].collector;
    c.cur.version == s.record.version && c.cur.armed == Some(c.receipt.request) && Accounted(c.cur, c.receipt, delay).Some?
  }

  function DoAccount(s: State, p: nat, delay: Option<int>, ack: Ack): (t: State)
    requires CanAccount(s, p, delay)
  {
    var c := s.workers[p].collector;
    var t := if ack.Received? then EndCollection(s, p) else SetCollector(s, p, Holding(c.receipt));
    t.(record := Accounted(c.cur, c.receipt, delay).value, accounted := Then(s.accounted, c.receipt))
  }

  // Lifecycle events -----------------------------------------------------------------

  predicate CanConclude(s: State, c: nat, gone: bool, now: int)
  {
    c in s.reconciles && s.reconciles[c].Located? &&
    var r := s.reconciles[c];
    && r.uid in s.requests && s.requests[r.uid].present && s.requests[r.uid].version == r.held.version
    && ConcludedStatus(r, gone, now) != r.held.status
  }

  function ConcludedStatus(r: Reconcile, gone: bool, now: int): (status: Status)
    requires r.Located?
  {
    Reconciled(r.held, BoundTo(r.record, r.uid), ArmedVerb(r.record), r.available, gone, now)
  }

  function DoConclude(s: State, c: nat, gone: bool, now: int): (t: State)
    requires CanConclude(s, c, gone, now)
  {
    var r := s.reconciles[c];
    s.(requests := s.requests[r.uid := r.held.(version := r.held.version + 1, status := ConcludedStatus(r, gone, now))],
       reconciles := s.reconciles - {c})
  }

  predicate CanFinalize(s: State, c: nat, on: bool, gone: bool)
  {
    c in s.reconciles && s.reconciles[c].uid in s.requests &&
    var r := s.reconciles[c];
    && s.requests[r.uid].present && s.requests[r.uid].version == r.held.version && r.held.finalizer != on
    && if on then r.held.deletedAt.None? && !Terminal(r.held.status.phase)
       else r.Located? && Terminal(r.held.status.phase) && (gone || (BoundTo(r.record, r.uid).None? && r.available))
  }

  function DoFinalize(s: State, c: nat, on: bool, gone: bool): (t: State)
    requires CanFinalize(s, c, on, gone)
  {
    var r := s.reconciles[c];
    s.(requests := s.requests[r.uid := r.held.(version := r.held.version + 1, finalizer := on)],
       reconciles := s.reconciles - {c})
  }

  /**
   * What a lookup may hand the reconcile: the record when it is found, and nothing otherwise. A request
   * that already names its execution is never told that the inventory conclusively lacks one.
   */
  predicate CanLocate(s: State, c: nat, found: bool, available: bool)
  {
    c in s.reconciles && s.reconciles[c].Holds? && (found ==> available) &&
    (!found && s.reconciles[c].held.status.admitted.Some? ==> !available)
  }

  function DoLocate(s: State, c: nat, found: bool, available: bool): (t: State)
    requires CanLocate(s, c, found, available)
  {
    var r := s.reconciles[c];
    s.(reconciles := s.reconciles[c := Located(r.uid, r.held, if found then Some(s.record) else None, available)])
  }

  // ---------------------------------------------------------------------------
  // The transition relation

  predicate StepEnabled(index: BlockIndex, s: State, p: nat, e: StepMove)
  {
    match e
    case Fetch => p in s.workers && s.workers[p].pc.Ready?
    case Look(uid) => CanLook(s, p, uid)
    case Note(_, _) => CanNote(s, p)
    case Reserve(_, now, tip) => CanReserve(index, s, p, now, tip)
    case Release => CanRelease(s, p)
    case Halt(_, _, _) => HoldsAction(s, p)
    case Verify => CanVerify(index, s, p)
    case Settle(positions, tip) => CanSettle(index, s, p, positions, tip)
    case Abandon => p in s.workers
  }

  function StepApply(index: BlockIndex, s: State, p: nat, e: StepMove): (t: State)
    requires StepEnabled(index, s, p, e)
  {
    match e
    case Fetch => SetPc(s, p, Read(s.record))
    case Look(uid) => SetPc(s, p, Viewed(s.workers[p].pc.snap, uid, ReadRequest(s, uid)))
    case Note(note, ack) => DoNote(s, p, note, ack)
    case Reserve(admission, now, tip) => DoReserve(index, s, p, admission, now, tip)
    case Release => DoRelease(s, p)
    case Halt(reason, uncertain, unsafe) => DoHalt(s, p, reason, uncertain, unsafe)
    case Verify => DoVerify(index, s, p)
    case Settle(positions, tip) => DoSettle(index, s, p, positions, tip)
    case Abandon => s.(workers := s.workers[p := Return(s.workers[p])])
  }

  predicate ArmEnabled(s: State, p: nat, e: ArmMove)
  {
    match e
    case Claim(rpc) => CanClaim(s, p, rpc)
    case Recheck => CanRecheck(s, p)
    case Authorize(env) => CanAuthorize(s, p, env)
    case Arm(nonce, _) => CanArm(s, p, nonce)
    case Confirm(env) => CanConfirm(s, p, env)
    case Refuse(_) => CanRefuse(s, p)
    case Reread => CanReread(s, p)
    case Withdraw => CanWithdraw(s, p)
    case Launch => CanLaunch(s, p)
  }

  function ArmApply(s: State, p: nat, e: ArmMove): (t: State)
    requires ArmEnabled(s, p, e)
  {
    match e
    case Claim(rpc) => DoClaim(s, p, rpc)
    case Recheck => SetPc(s, p, Current(s.workers[p].pc.rpc, s.record))
    case Authorize(_) => SetPc(s, p, Authorized(s.workers[p].pc.rpc, s.workers[p].pc.cur))
    case Arm(nonce, ack) => DoArm(s, p, nonce, ack)
    case Confirm(_) => SetPc(s, p, Confirmed(s.workers[p].pc.op))
    case Refuse(reason) => SetPc(s, p, Refusing(s.workers[p].pc.op, reason))
    case Reread => SetPc(s, p, Retracting(s.workers[p].pc.op, s.workers[p].pc.reason, s.record))
    case Withdraw => WriteAndReturn(s, p, Withdrawn(s.workers[p].pc.cur, s.workers[p].pc.reason))
    case Launch => DoLaunch(s, p)
  }

  predicate CollectorEnabled(s: State, p: nat, e: CollectorMove)
  {
    p in s.workers &&
    var c := s.workers[p].collector;
    match e
    case Dispatch => c.Launched?
    case Respond(_, _) => c.InFlight?
    case Drop => !c.Quiet?
    case Collect => c.Holding?
    case Account(delay, _) => CanAccount(s, p, delay)
    case Done => c.Collected? && c.cur.receipt.Some? && c.cur.receipt.value.request.id == c.receipt.request.id
    case Retry => c.Collected?
  }

  function CollectorApply(s: State, p: nat, e: CollectorMove): (t: State)
    requires CollectorEnabled(s, p, e)
  {
    match e
    case Dispatch => DoDispatch(s, p)
    case Respond(hash, at) => SetCollector(s, p, Holding(Receipt(s.workers[p].collector.op, hash, at)))
    case Drop => EndCollection(s, p)
    case Collect => SetCollector(s, p, Collected(s.workers[p].collector.receipt, s.record))
    case Account(delay, ack) => DoAccount(s, p, delay, ack)
    case Done => EndCollection(s, p)
    case Retry => SetCollector(s, p, Holding(s.workers[p].collector.receipt))
  }

  predicate ChangeEnabled(s: State, e: Change)
  {
    match e
    case Spawn(p) => p !in s.processes
    case Crash(p) => p in s.workers
    case Close(p) => p in s.workers
    case Publish(_) => true
    case Create(uid, _, _) => uid !in s.requests
    case Delete(uid, _) => uid in s.requests
    case Remove(uid) => uid in s.requests
  }

  function ChangeApply(s: State, e: Change): (t: State)
    requires ChangeEnabled(s, e)
  {
    match e
    case Spawn(p) => s.(workers := s.workers[p := Worker(false, false, Ready, Quiet)], processes := s.processes + {p})
    case Crash(p) => s.(workers := s.workers - {p})
    case Close(p) => s.(workers := s.workers[p := s.workers[p].(closed := true)])
    case Publish(offer) => s.(record := Bumped(s.record).(offer := Some(offer)))
    case Create(uid, kind, expiresAt) => s.(requests := s.requests[uid := Created(kind, expiresAt)])
    case Delete(uid, at) =>
      s.(requests := s.requests[uid := s.requests[uid].(version := s.requests[uid].version + 1, deletedAt := Some(at))])
    case Remove(uid) =>
      s.(requests := s.requests[uid := s.requests[uid].(version := s.requests[uid].version + 1, present := false)])
  }

  predicate LifecycleEnabled(s: State, c: nat, e: LifecycleMove)
  {
    match e
    case Observe(uid) => c !in s.reconciles && uid in s.requests && s.requests[uid].present
    case Locate(found, available) => CanLocate(s, c, found, available)
    case Judge(gone, now) => CanConclude(s, c, gone, now)
    case Finalize(on, gone) => CanFinalize(s, c, on, gone)
    case Leave => true
  }

  function LifecycleApply(s: State, c: nat, e: LifecycleMove): (t: State)
    requires LifecycleEnabled(s, c, e)
  {
    match e
    case Observe(uid) => s.(reconciles := s.reconciles[c := Holds(uid, s.requests[uid])])
    case Locate(found, available) => DoLocate(s, c, found, available)
    case Judge(gone, now) => DoConclude(s, c, gone, now)
    case Finalize(on, gone) => DoFinalize(s, c, on, gone)
    case Leave => s.(reconciles := s.reconciles - {c})
  }

  predicate Enabled(index: BlockIndex, s: State, e: Event)
  {
    match e
    case Stepping(p, m) => StepEnabled(index, s, p, m)
    case Arms(p, m) => ArmEnabled(s, p, m)
    case Collecting(p, m) => CollectorEnabled(s, p, m)
    case Cluster(m) => ChangeEnabled(s, m)
    case Lifecycle(c, m) => LifecycleEnabled(s, c, m)
  }

  function Apply(index: BlockIndex, s: State, e: Event): (t: State)
    requires Enabled(index, s, e)
  {
    match e
    case Stepping(p, m) => StepApply(index, s, p, m)
    case Arms(p, m) => ArmApply(s, p, m)
    case Collecting(p, m) => CollectorApply(s, p, m)
    case Cluster(m) => ChangeApply(s, m)
    case Lifecycle(c, m) => LifecycleApply(s, c, m)
  }

  /** A run is a start and the events taken from it. */
  ghost predicate Run(index: BlockIndex, s: State, events: seq<Event>)
    decreases |events|
  {
    if events == [] then true
    else Enabled(index, s, events[0]) && Run(index, Apply(index, s, events[0]), events[1..])
  }

  ghost function After(index: BlockIndex, s: State, events: seq<Event>): (t: State)
    requires Run(index, s, events)
    decreases |events|
  {
    if events == [] then s else After(index, Apply(index, s, events[0]), events[1..])
  }
}
