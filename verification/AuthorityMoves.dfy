/** Arming, sending, accounting, and every event that leaves the record alone keep the invariant. */
module AuthorityMoves {
  import opened Common
  import opened Reservations
  import opened Lifecycle
  import opened Authority
  import opened AuthorityInvariant
  import opened AuthorityWrites

  lemma {:induction false} SentIdsAreIds(log: Log<Armed>, op: Armed)
    ensures op in Sent(log) ==> op.id in Ids(log)
  {
    match log {
      case Start =>
      case Then(past, _) => SentIdsAreIds(past, op);
    }
  }

  // ---------------------------------------------------------------------------
  // Arm

  /** Nothing at rest can be authorized again. */
  lemma RestForbidsArming(index: BlockIndex, cur: Record, rpc: Rpc)
    requires rpc.action.Some? && Permits(cur, rpc) && ReservationOk(index, cur.action.value)
    ensures !Halted(cur.action.value) && !Complete(cur.action.value)
  {
  }

  lemma ArmFacts(index: BlockIndex, s: State, p: nat, nonce: nat)
    requires Inv(index, s) && CanArm(s, p, nonce)
    ensures var pc := s.workers[p].pc;
      pc.cur == s.record && Permits(s.record, pc.rpc) && Armed(Id(p, nonce), pc.rpc) !in Sent(s.sent) &&
      Id(p, nonce) !in Ids(s.sent) && s.workers[p].collector.Quiet? && s.workers[p].active
  {
    var pc := s.workers[p].pc;
    assert WorkerOk(s.workers[p], s.record, s.requests, s.closed, s.ids, s.sent, p);
    SentIdsAreIds(s.sent, Armed(Id(p, nonce), pc.rpc));
  }

  /** The slot takes a permitted RPC whose identifier nothing has used. */
  ghost predicate ArmStep(s: State, t: State, op: Armed)
  {
    && t.record == ArmedRecord(s.record, op) && SlotFree(s.record, op.rpc) && Permits(s.record, op.rpc)
    && op !in Sent(s.sent) && op.id !in s.ids && t.ids == s.ids + {op.id}
    && t.sent == s.sent && t.accounted == s.accounted && t.closed == s.closed && t.reserved == s.reserved
  }

  lemma ArmBooks(index: BlockIndex, s: State, t: State, op: Armed)
    requires HistoryOk(index, s) && BooksOk(s) && ArmStep(s, t, op)
    ensures BooksOk(t)
    ensures forall uid :: Calm(s, t, uid)
  {
    if op.rpc.action.Some? {
      RestForbidsArming(index, s.record, op.rpc);
    }
    forall uid: Uid
      ensures BookOk(t.record.action, t.record.armed, t.closed, t.sent, t.accounted, uid)
      ensures Calm(s, t, uid)
    {
      assert BookOk(s.record.action, s.record.armed, s.closed, s.sent, s.accounted, uid);
    }
  }

  lemma ArmHistory(index: BlockIndex, s: State, t: State, op: Armed)
    requires HistoryOk(index, s) && ArmStep(s, t, op)
    ensures HistoryOk(index, t)
  {
  }

  lemma ArmKeeps(index: BlockIndex, s: State, p: nat, nonce: nat, ack: Ack)
    requires Inv(index, s) && CanArm(s, p, nonce)
    ensures Inv(index, DoArm(s, p, nonce, ack))
  {
    var t := DoArm(s, p, nonce, ack);
    var op := Armed(Id(p, nonce), s.workers[p].pc.rpc);
    ArmFacts(index, s, p, nonce);
    ArmHistory(index, s, t, op);
    ArmBooks(index, s, t, op);
    ArmedWorker(index, s, p, nonce, ack);
    assert WrittenBy(s, t, p);
    assert SameHolder(s, t);
    HolderWrite(index, s, t, p);
  }

  lemma ArmedWorker(index: BlockIndex, s: State, p: nat, nonce: nat, ack: Ack)
    requires Inv(index, s) && CanArm(s, p, nonce)
    ensures var t := DoArm(s, p, nonce, ack); WorkerOk(t.workers[p], t.record, t.requests, t.closed, t.ids, t.sent, p)
  {
    ArmFacts(index, s, p, nonce);
  }

  // ---------------------------------------------------------------------------
  // Withdraw

  lemma WithdrawFacts(index: BlockIndex, s: State, p: nat)
    requires Inv(index, s) && CanWithdraw(s, p)
    ensures var pc := s.workers[p].pc;
      pc.cur == s.record && s.record.armed == Some(pc.op) && pc.op !in Sent(s.sent) && pc.op.id.process == p &&
      s.workers[p].collector.Quiet?
  {
    assert WorkerOk(s.workers[p], s.record, s.requests, s.closed, s.ids, s.sent, p);
    SentIdsAreIds(s.sent, s.workers[p].pc.op);
  }

  /** The slot gives up an RPC that was never sent. */
  ghost predicate WithdrawStep(s: State, t: State, reason: StopReason)
  {
    && t.record == Withdrawn(s.record, reason) && s.record.armed.Some? && s.record.armed.value !in Sent(s.sent)
    && t.ids == s.ids && t.sent == s.sent && t.accounted == s.accounted && t.closed == s.closed && t.reserved == s.reserved
  }

  lemma WithdrawHistory(index: BlockIndex, s: State, t: State, reason: StopReason)
    requires HistoryOk(index, s) && WithdrawStep(s, t, reason)
    ensures HistoryOk(index, t)
  {
    if s.record.action.Some? {
      StopKeepsSound(index, s.record.action.value, reason, false, false);
    }
  }

  lemma WithdrawBooks(s: State, t: State, reason: StopReason)
    requires BooksOk(s) && WithdrawStep(s, t, reason)
    ensures BooksOk(t)
    ensures forall uid :: Calm(s, t, uid)
  {
    forall uid: Uid
      ensures BookOk(t.record.action, t.record.armed, t.closed, t.sent, t.accounted, uid)
      ensures Calm(s, t, uid)
    {
      assert BookOk(s.record.action, s.record.armed, s.closed, s.sent, s.accounted, uid);
    }
  }

  lemma WithdrawKeeps(index: BlockIndex, s: State, p: nat)
    requires Inv(index, s) && CanWithdraw(s, p)
    ensures Inv(index, ArmApply(s, p, Withdraw))
  {
    var t := ArmApply(s, p, Withdraw);
    var reason := s.workers[p].pc.reason;
    WithdrawFacts(index, s, p);
    WithdrawHistory(index, s, t, reason);
    WithdrawBooks(s, t, reason);
    assert WrittenBy(s, t, p);
    ReturnedWorker(index, s, t, p);
    HolderWrite(index, s, t, p);
  }

  // ---------------------------------------------------------------------------
  // Account

  /** A receipt that fits advances the reservation by exactly its own token. */
  lemma AccountAdvances(index: BlockIndex, a: Reservation, rpc: Rpc, id: Id, hash: string, at: int, delay: Option<int>)
    requires ReservationOk(index, a) && rpc.action.Some? && Fits(Some(a), rpc)
    requires AccountReceipt(a, rpc.verb, id, hash, at, delay).Some?
    ensures var b := AccountReceipt(a, rpc.verb, id, hash, at, delay).value;
      && ReservationOk(index, b) && b.request == a.request && b.kind == a.kind
      && ScriptOf(Some(b)) == Then(ScriptOf(Some(a)), TokenOf(rpc))
  {
    AccountKeepsSound(index, a, rpc.verb, id, hash, at, delay);
  }

  lemma AccountFacts(index: BlockIndex, s: State, p: nat, delay: Option<int>)
    requires Inv(index, s) && CanAccount(s, p, delay)
    ensures var c := s.workers[p].collector;
      c.cur == s.record && s.record.armed == Some(c.receipt.request) && c.receipt.request in Sent(s.sent) &&
      c.receipt.request.id in Ids(s.sent) && !Arming(s.workers[p].pc)
  {
    assert WorkerOk(s.workers[p], s.record, s.requests, s.closed, s.ids, s.sent, p);
    SentIdsAreIds(s.sent, s.workers[p].collector.receipt.request);
  }

  /** The slot's sent RPC is answered and recorded. */
  ghost predicate AccountStep(s: State, t: State, receipt: Receipt, delay: Option<int>)
  {
    && s.record.armed == Some(receipt.request) && receipt.request in Sent(s.sent)
    && Accounted(s.record, receipt, delay) == Some(t.record) && t.accounted == Then(s.accounted, receipt)
    && t.ids == s.ids && t.sent == s.sent && t.closed == s.closed && t.reserved == s.reserved
  }

  lemma AccountSlot(index: BlockIndex, s: State, t: State, receipt: Receipt, delay: Option<int>)
    requires HistoryOk(index, s) && AccountStep(s, t, receipt, delay)
    ensures SlotOk(t.record.armed, t.ids, t.sent, t.accounted)
    ensures TotalsOk(t.record.armed, t.record.completed, t.record.blocks, t.sent, t.accounted)
  {
    assert Answered(Then(s.accounted, receipt)) == Answered(s.accounted) + {receipt.request};
  }

  lemma AccountRecord(index: BlockIndex, s: State, t: State, receipt: Receipt, delay: Option<int>)
    requires HistoryOk(index, s) && AccountStep(s, t, receipt, delay)
    ensures RecordOk(index, t.record, t.closed) && ReservedOk(t.reserved, t.record.action, t.closed)
    ensures SameHolder(s, t)
  {
    var rpc := receipt.request.rpc;
    if rpc.action.Some? {
      AccountAdvances(index, s.record.action.value, rpc, receipt.request.id, receipt.hash, receipt.receivedAt, delay);
    }
  }

  lemma AccountBook(index: BlockIndex, s: State, t: State, receipt: Receipt, delay: Option<int>, uid: Uid)
    requires HistoryOk(index, s) && AccountStep(s, t, receipt, delay)
    requires BookOk(s.record.action, s.record.armed, s.closed, s.sent, s.accounted, uid)
    ensures BookOk(t.record.action, t.record.armed, t.closed, t.sent, t.accounted, uid)
    ensures Calm(s, t, uid)
  {
    var rpc := receipt.request.rpc;
    if rpc.action.Some? {
      AccountAdvances(index, s.record.action.value, rpc, receipt.request.id, receipt.hash, receipt.receivedAt, delay);
    }
  }

  lemma AccountKeeps(index: BlockIndex, s: State, p: nat, delay: Option<int>, ack: Ack)
    requires Inv(index, s) && CanAccount(s, p, delay)
    ensures Inv(index, DoAccount(s, p, delay, ack))
  {
    var t := DoAccount(s, p, delay, ack);
    var receipt := s.workers[p].collector.receipt;
    AccountFacts(index, s, p, delay);
    AccountSlot(index, s, t, receipt, delay);
    AccountRecord(index, s, t, receipt, delay);
    forall uid: Uid
      ensures BookOk(t.record.action, t.record.armed, t.closed, t.sent, t.accounted, uid)
      ensures Calm(s, t, uid)
    {
      AccountBook(index, s, t, receipt, delay, uid);
    }
    assert WrittenBy(s, t, p);
    AccountedWorker(index, s, p, delay, ack);
    HolderWrite(index, s, t, p);
  }

  lemma AccountedWorker(index: BlockIndex, s: State, p: nat, delay: Option<int>, ack: Ack)
    requires Inv(index, s) && CanAccount(s, p, delay)
    ensures var t := DoAccount(s, p, delay, ack); WorkerOk(t.workers[p], t.record, t.requests, t.closed, t.ids, t.sent, p)
  {
    AccountFacts(index, s, p, delay);
    assert WorkerOk(s.workers[p], s.record, s.requests, s.closed, s.ids, s.sent, p);
  }

  // ---------------------------------------------------------------------------
  // Dispatch

  lemma DispatchHistory(index: BlockIndex, s: State, p: nat)
    requires Inv(index, s) && CanDispatch(s, p)
    ensures HistoryOk(index, DoDispatch(s, p))
    ensures BooksOk(DoDispatch(s, p))
  {
    var t := DoDispatch(s, p);
    var op := s.workers[p].collector.op;
    assert WorkerOk(s.workers[p], s.record, s.requests, s.closed, s.ids, s.sent, p);
    SentIdsAreIds(s.sent, op);
    forall uid: Uid
      ensures BookOk(t.record.action, t.record.armed, t.closed, t.sent, t.accounted, uid)
    {
      assert BookOk(s.record.action, s.record.armed, s.closed, s.sent, s.accounted, uid);
    }
  }

  /** Compensation follows an acknowledged invalidation, so its request was cleared before. */
  lemma ReconsiderFollowsSend(index: BlockIndex, s: State, op: Armed, uid: Uid)
    requires Inv(index, s) && s.record.armed == Some(op) && op.rpc.action == Some(uid) && op.rpc.verb == Reconsider
    ensures SentFor(s.sent, uid) != Start
  {
    assert BookOk(s.record.action, s.record.armed, s.closed, s.sent, s.accounted, uid);
    var a := s.record.action.value;
    MinesKeepHead(Then(Start, Invalidated(a.invalidated)), a.blocks);
  }

  lemma {:induction false} MinesKeepHead(head: Log<Token>, n: nat)
    requires head != Start
    ensures Mines(head, n) != Start
  {
    if n != 0 {
      MinesKeepHead(head, n - 1);
    }
  }

  lemma DispatchWorkers(index: BlockIndex, s: State, p: nat)
    requires Inv(index, s) && CanDispatch(s, p)
    ensures WorkersOk(DoDispatch(s, p))
  {
    var t := DoDispatch(s, p);
    assert WorkerOk(s.workers[p], s.record, s.requests, s.closed, s.ids, s.sent, p);
    forall q | q in t.workers
      ensures WorkerOk(t.workers[q], t.record, t.requests, t.closed, t.ids, t.sent, q)
    {
      assert WorkerOk(s.workers[q], s.record, s.requests, s.closed, s.ids, s.sent, q);
    }
  }

  lemma DispatchKeeps(index: BlockIndex, s: State, p: nat)
    requires Inv(index, s) && CanDispatch(s, p)
    ensures Inv(index, DoDispatch(s, p))
  {
    var t := DoDispatch(s, p);
    var op := s.workers[p].collector.op;
    assert WorkerOk(s.workers[p], s.record, s.requests, s.closed, s.ids, s.sent, p);
    DispatchHistory(index, s, p);
    DispatchWorkers(index, s, p);
    forall uid: Uid
      ensures RequestOk(t.requests, t.record.action, t.record.armed, t.closed, t.sent, uid)
    {
      assert RequestOk(s.requests, s.record.action, s.record.armed, s.closed, s.sent, uid);
      if op.rpc.action == Some(uid) && op.rpc.verb == Reconsider {
        ReconsiderFollowsSend(index, s, op, uid);
      }
    }
  }

  // ---------------------------------------------------------------------------
  // Events that change one process only

  /** Replacing one process by a sound one changes nothing else. */
  lemma LocalMove(index: BlockIndex, s: State, p: nat, w: Worker)
    requires Inv(index, s) && WorkerOk(w, s.record, s.requests, s.closed, s.ids, s.sent, p)
    ensures Inv(index, s.(workers := s.workers[p := w]))
  {
    var t := s.(workers := s.workers[p := w]);
    assert WorkersOk(t);
  }

  lemma FetchKeeps(index: BlockIndex, s: State, p: nat)
    requires Inv(index, s) && p in s.workers && s.workers[p].pc.Ready?
    ensures Inv(index, StepApply(index, s, p, Fetch))
  {
    var w := s.workers[p];
    assert WorkerOk(w, s.record, s.requests, s.closed, s.ids, s.sent, p);
    LocalMove(index, s, p, w.(pc := Read(s.record)));
  }

  lemma AbandonKeeps(index: BlockIndex, s: State, p: nat)
    requires Inv(index, s) && p in s.workers
    ensures Inv(index, StepApply(index, s, p, Abandon))
  {
    var w := s.workers[p];
    assert WorkerOk(w, s.record, s.requests, s.closed, s.ids, s.sent, p);
    LocalMove(index, s, p, Return(w));
  }

  /** A request read as live while the record has not moved never held the record before. */
  lemma LookKeeps(index: BlockIndex, s: State, p: nat, uid: Uid)
    requires Inv(index, s) && CanLook(s, p, uid)
    ensures Inv(index, StepApply(index, s, p, Look(uid)))
  {
    var w := s.workers[p];
    assert WorkerOk(w, s.record, s.requests, s.closed, s.ids, s.sent, p);
    assert RequestOk(s.requests, s.record.action, s.record.armed, s.closed, s.sent, uid);
    LocalMove(index, s, p, w.(pc := Viewed(w.pc.snap, uid, ReadRequest(s, uid))));
  }

  /** A passed authorization permits the operation on the record it read. */
  lemma AuthorizationPermits(cur: Record, rpc: Rpc, view: Option<Request>, env: Answers)
    requires Authorizes(cur, rpc, view, env) && Shaped(rpc)
    ensures Permits(cur, rpc)
  {
  }

  lemma AuthorizeKeeps(index: BlockIndex, s: State, p: nat, env: Answers)
    requires Inv(index, s) && CanAuthorize(s, p, env)
    ensures Inv(index, ArmApply(s, p, Authorize(env)))
  {
    var w := s.workers[p];
    assert WorkerOk(w, s.record, s.requests, s.closed, s.ids, s.sent, p);
    AuthorizationPermits(w.pc.cur, w.pc.rpc, if w.pc.rpc.action.Some? then ReadRequest(s, w.pc.rpc.action.value) else None, env);
    LocalMove(index, s, p, w.(pc := Authorized(w.pc.rpc, w.pc.cur)));
  }

  /** The second authorization is what clears a first send: it read a live, admitted request. */
  lemma ConfirmKeeps(index: BlockIndex, s: State, p: nat, env: Answers)
    requires Inv(index, s) && CanConfirm(s, p, env)
    ensures Inv(index, ArmApply(s, p, Confirm(env)))
  {
    var w := s.workers[p];
    assert WorkerOk(w, s.record, s.requests, s.closed, s.ids, s.sent, p);
    LocalMove(index, s, p, w.(pc := Confirmed(w.pc.op)));
  }

  lemma ClaimKeeps(index: BlockIndex, s: State, p: nat, rpc: Rpc)
    requires Inv(index, s) && CanClaim(s, p, rpc)
    ensures Inv(index, DoClaim(s, p, rpc))
  {
    var w := s.workers[p];
    assert WorkerOk(w, s.record, s.requests, s.closed, s.ids, s.sent, p);
    LocalMove(index, s, p, w.(pc := Claimed(rpc), active := true));
  }

  lemma RecheckKeeps(index: BlockIndex, s: State, p: nat)
    requires Inv(index, s) && CanRecheck(s, p)
    ensures Inv(index, ArmApply(s, p, Recheck))
  {
    var w := s.workers[p];
    assert WorkerOk(w, s.record, s.requests, s.closed, s.ids, s.sent, p);
    LocalMove(index, s, p, w.(pc := Current(w.pc.rpc, s.record)));
  }

  lemma RefuseKeeps(index: BlockIndex, s: State, p: nat, reason: StopReason)
    requires Inv(index, s) && CanRefuse(s, p)
    ensures Inv(index, ArmApply(s, p, Refuse(reason)))
  {
    var w := s.workers[p];
    var refusing := w.(pc := Refusing(w.pc.op, reason));
    assert WorkerOk(refusing, s.record, s.requests, s.closed, s.ids, s.sent, p) by {
      assert WorkerOk(w, s.record, s.requests, s.closed, s.ids, s.sent, p);
      RefusedWorker(w, s.record, s.requests, s.closed, s.ids, s.sent, p, reason);
    }
    LocalMove(index, s, p, refusing);
    assert ArmApply(s, p, Refuse(reason)) == s.(workers := s.workers[p := refusing]);
  }

  lemma RefusedWorker(w: Worker, record: Record, requests: map<Uid, Request>, closed: map<Uid, Reservation>,
                      ids: set<Id>, sent: Log<Armed>, p: nat, reason: StopReason)
    requires WorkerOk(w, record, requests, closed, ids, sent, p) && (w.pc.Written? || w.pc.Confirmed?)
    ensures WorkerOk(w.(pc := Refusing(w.pc.op, reason)), record, requests, closed, ids, sent, p)
  {
  }

  lemma RereadKeeps(index: BlockIndex, s: State, p: nat)
    requires Inv(index, s) && CanReread(s, p)
    ensures Inv(index, ArmApply(s, p, Reread))
  {
    var w := s.workers[p];
    assert WorkerOk(w, s.record, s.requests, s.closed, s.ids, s.sent, p);
    LocalMove(index, s, p, w.(pc := Retracting(w.pc.op, w.pc.reason, s.record)));
  }

  lemma LaunchKeeps(index: BlockIndex, s: State, p: nat)
    requires Inv(index, s) && CanLaunch(s, p)
    ensures Inv(index, DoLaunch(s, p))
  {
    var w := s.workers[p];
    assert WorkerOk(w, s.record, s.requests, s.closed, s.ids, s.sent, p);
    LocalMove(index, s, p, w.(pc := Ready, collector := Launched(w.pc.op)));
  }

  lemma CollectorMovesKeep(index: BlockIndex, s: State, p: nat, e: CollectorMove)
    requires Inv(index, s) && CollectorEnabled(s, p, e)
    requires !e.Dispatch? && !e.Account?
    ensures Inv(index, CollectorApply(s, p, e))
  {
    var t := CollectorApply(s, p, e);
    assert WorkerOk(s.workers[p], s.record, s.requests, s.closed, s.ids, s.sent, p);
    LocalMove(index, s, p, t.workers[p]);
    assert t == s.(workers := s.workers[p := t.workers[p]]);
  }

  lemma ProcessChangesKeep(index: BlockIndex, s: State, e: Change)
    requires Inv(index, s) && ChangeEnabled(s, e)
    requires e.Spawn? || e.Crash? || e.Close?
    ensures Inv(index, ChangeApply(s, e))
  {
    var t := ChangeApply(s, e);
    forall q | q in t.workers
      ensures WorkerOk(t.workers[q], t.record, t.requests, t.closed, t.ids, t.sent, q)
    {
      if q in s.workers {
        assert WorkerOk(s.workers[q], s.record, s.requests, s.closed, s.ids, s.sent, q);
      }
    }
  }

  // ---------------------------------------------------------------------------
  // Requests

  /** One request moves forward; the record and every history stay. */
  ghost predicate RequestMove(s: State, t: State, uid: Uid)
  {
    && t.record == s.record && t.workers == s.workers && t.ids == s.ids && t.sent == s.sent
    && t.accounted == s.accounted && t.reserved == s.reserved && t.closed == s.closed
    && uid in t.requests
    && (uid in s.requests ==> Extends(s.requests[uid], t.requests[uid]))
    && (forall u :: u in s.requests ==> u in t.requests)
    && (forall u :: u in t.requests && u != uid ==> u in s.requests && t.requests[u] == s.requests[u])
  }

  lemma MovedRequestWorkers(index: BlockIndex, s: State, t: State, uid: Uid)
    requires Inv(index, s) && RequestMove(s, t, uid)
    ensures WorkersOk(t)
  {
    forall q | q in t.workers
      ensures WorkerOk(t.workers[q], t.record, t.requests, t.closed, t.ids, t.sent, q)
    {
      assert WorkerOk(s.workers[q], s.record, s.requests, s.closed, s.ids, s.sent, q);
    }
  }

  lemma MovedRequestReconciles(index: BlockIndex, s: State, t: State, uid: Uid)
    requires Inv(index, s) && RequestMove(s, t, uid)
    requires forall c :: c in t.reconciles ==> c in s.reconciles && t.reconciles[c] == s.reconciles[c]
    ensures ReconcilesOk(t)
  {
    forall c | c in t.reconciles
      ensures ReconcileOk(t.reconciles[c], t.requests, t.record.action, t.record.armed, t.closed)
    {
      assert ReconcileOk(s.reconciles[c], s.requests, s.record.action, s.record.armed, s.closed);
    }
  }

  lemma RequestMoveKeeps(index: BlockIndex, s: State, t: State, uid: Uid)
    requires Inv(index, s) && RequestMove(s, t, uid)
    requires OutcomeOk(t.requests[uid].status, Book(t.record.action, t.closed, uid), t.record.armed, uid)
    requires forall c :: c in t.reconciles ==> c in s.reconciles && t.reconciles[c] == s.reconciles[c]
    ensures Inv(index, t)
  {
    MovedRequestWorkers(index, s, t, uid);
    MovedRequestReconciles(index, s, t, uid);
    forall u: Uid
      ensures RequestOk(t.requests, t.record.action, t.record.armed, t.closed, t.sent, u)
    {
      assert RequestOk(s.requests, s.record.action, s.record.armed, s.closed, s.sent, u);
    }
    assert RequestsOk(t);
    assert BooksOk(t);
    assert HistoryOk(index, t);
  }

  lemma CreateKeeps(index: BlockIndex, s: State, uid: Uid, kind: Kind, expiresAt: int)
    requires Inv(index, s) && uid !in s.requests
    ensures Inv(index, ChangeApply(s, Create(uid, kind, expiresAt)))
  {
    RequestMoveKeeps(index, s, ChangeApply(s, Create(uid, kind, expiresAt)), uid);
  }

  lemma DeleteKeeps(index: BlockIndex, s: State, uid: Uid, at: int)
    requires Inv(index, s) && uid in s.requests
    ensures Inv(index, ChangeApply(s, Delete(uid, at)))
  {
    assert RequestOk(s.requests, s.record.action, s.record.armed, s.closed, s.sent, uid);
    RequestMoveKeeps(index, s, ChangeApply(s, Delete(uid, at)), uid);
  }

  lemma RemoveKeeps(index: BlockIndex, s: State, uid: Uid)
    requires Inv(index, s) && uid in s.requests
    ensures Inv(index, ChangeApply(s, Remove(uid)))
  {
    assert RequestOk(s.requests, s.record.action, s.record.armed, s.closed, s.sent, uid);
    RequestMoveKeeps(index, s, ChangeApply(s, Remove(uid)), uid);
  }

  // ---------------------------------------------------------------------------
  // Lifecycle

  lemma ReadingKeeps(index: BlockIndex, s: State, c: nat, e: LifecycleMove)
    requires Inv(index, s) && LifecycleEnabled(s, c, e)
    requires e.Observe? || e.Locate? || e.Leave?
    ensures Inv(index, LifecycleApply(s, c, e))
  {
    var t := LifecycleApply(s, c, e);
    forall d | d in t.reconciles
      ensures ReconcileOk(t.reconciles[d], t.requests, t.record.action, t.record.armed, t.closed)
    {
      if d in s.reconciles {
        assert ReconcileOk(s.reconciles[d], s.requests, s.record.action, s.record.armed, s.closed);
      }
    }
  }

  /** A judged status is one the current state justifies. */
  lemma JudgementIsSound(index: BlockIndex, s: State, c: nat, gone: bool, now: int)
    requires Inv(index, s) && CanConclude(s, c, gone, now)
    ensures var r := s.reconciles[c];
      && OutcomeOk(ConcludedStatus(r, gone, now), Book(s.record.action, s.closed, r.uid), s.record.armed, r.uid)
      && Extends(r.held, r.held.(version := r.held.version + 1, status := ConcludedStatus(r, gone, now)))
  {
    var r := s.reconciles[c];
    assert ReconcileOk(r, s.requests, s.record.action, s.record.armed, s.closed);
    assert RequestOk(s.requests, s.record.action, s.record.armed, s.closed, s.sent, r.uid);
    OutcomeStandsOn(r.held, BoundTo(r.record, r.uid), ArmedVerb(r.record), r.available, gone, now);
  }

  lemma JudgeKeeps(index: BlockIndex, s: State, c: nat, gone: bool, now: int)
    requires Inv(index, s) && CanConclude(s, c, gone, now)
    ensures Inv(index, DoConclude(s, c, gone, now))
  {
    var r := s.reconciles[c];
    assert ReconcileOk(r, s.requests, s.record.action, s.record.armed, s.closed);
    JudgementIsSound(index, s, c, gone, now);
    RequestMoveKeeps(index, s, DoConclude(s, c, gone, now), r.uid);
  }

  lemma FinalizeKeeps(index: BlockIndex, s: State, c: nat, on: bool, gone: bool)
    requires Inv(index, s) && CanFinalize(s, c, on, gone)
    ensures Inv(index, DoFinalize(s, c, on, gone))
  {
    var r := s.reconciles[c];
    assert ReconcileOk(r, s.requests, s.record.action, s.record.armed, s.closed);
    assert RequestOk(s.requests, s.record.action, s.record.armed, s.closed, s.sent, r.uid);
    RequestMoveKeeps(index, s, DoFinalize(s, c, on, gone), r.uid);
  }
}
