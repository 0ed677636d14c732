/** Every write of the execution record keeps the invariant. */
module AuthorityWrites {
  import opened Common
  import opened Reservations
  import opened Lifecycle
  import opened Authority
  import opened AuthorityInvariant

  // ---------------------------------------------------------------------------
  // What a write by one process leaves to everyone else

  /** A new version of the record, written by `p`, that does not touch an unsent RPC of another process. */
  ghost predicate WrittenBy(s: State, t: State, p: nat)
  {
    && s.record.version < t.record.version
    && t.requests == s.requests && t.reconciles == s.reconciles && t.sent == s.sent && s.ids <= t.ids
    && (s.record.armed.Some? && s.record.armed.value.id.process != p && s.record.armed.value.id !in Ids(s.sent) ==>
          t.record.armed == s.record.armed)
    && p in t.workers && t.workers.Keys == s.workers.Keys
    && (forall q :: q in s.workers && q != p ==> t.workers[q] == s.workers[q])
  }

  /** Whatever came to rest stays at rest. */
  ghost predicate Calm(s: State, t: State, uid: Uid)
  {
    && (Delivered(Book(s.record.action, s.closed, uid), s.record.armed, uid) ==>
          Delivered(Book(t.record.action, t.closed, uid), t.record.armed, uid))
    && (Rested(Book(s.record.action, s.closed, uid), s.record.armed, uid) ==>
          Rested(Book(t.record.action, t.closed, uid), t.record.armed, uid))
  }

  lemma OtherWorkers(index: BlockIndex, s: State, t: State, p: nat)
    requires Inv(index, s) && WrittenBy(s, t, p)
    requires WorkerOk(t.workers[p], t.record, t.requests, t.closed, t.ids, t.sent, p)
    ensures WorkersOk(t)
  {
    forall q | q in t.workers
      ensures WorkerOk(t.workers[q], t.record, t.requests, t.closed, t.ids, t.sent, q)
    {
      if q != p {
        assert WorkerOk(s.workers[q], s.record, s.requests, s.closed, s.ids, s.sent, q);
      }
    }
  }

  lemma ReconcilesFollow(index: BlockIndex, s: State, t: State)
    requires Inv(index, s) && t.requests == s.requests && t.reconciles == s.reconciles
    requires forall uid :: Calm(s, t, uid)
    ensures ReconcilesOk(t)
  {
    forall c | c in t.reconciles
      ensures ReconcileOk(t.reconciles[c], t.requests, t.record.action, t.record.armed, t.closed)
    {
      assert ReconcileOk(s.reconciles[c], s.requests, s.record.action, s.record.armed, s.closed);
      assert Calm(s, t, s.reconciles[c].uid);
    }
  }

  /** The write keeps which request holds the record. */
  ghost predicate SameHolder(s: State, t: State)
  {
    && t.closed == s.closed
    && (t.record.action.Some? <==> s.record.action.Some?)
    && (s.record.action.Some? ==>
          && t.record.action.value.request == s.record.action.value.request
          && t.record.action.value.kind == s.record.action.value.kind
          && t.record.action.value.expiresAt == s.record.action.value.expiresAt)
  }

  lemma RequestsFollow(index: BlockIndex, s: State, t: State)
    requires Inv(index, s) && t.requests == s.requests && t.sent == s.sent && SameHolder(s, t)
    requires forall uid :: Calm(s, t, uid)
    ensures RequestsOk(t)
  {
    forall uid: Uid
      ensures RequestOk(t.requests, t.record.action, t.record.armed, t.closed, t.sent, uid)
    {
      assert RequestOk(s.requests, s.record.action, s.record.armed, s.closed, s.sent, uid);
      assert Calm(s, t, uid);
    }
  }

  /** A write that keeps the holder, judged by what it does to the history and the writer. */
  lemma HolderWrite(index: BlockIndex, s: State, t: State, p: nat)
    requires Inv(index, s) && WrittenBy(s, t, p) && SameHolder(s, t)
    requires forall uid :: Calm(s, t, uid)
    requires HistoryOk(index, t) && BooksOk(t)
    requires WorkerOk(t.workers[p], t.record, t.requests, t.closed, t.ids, t.sent, p)
    ensures Inv(index, t)
  {
    OtherWorkers(index, s, t, p);
    ReconcilesFollow(index, s, t);
    RequestsFollow(index, s, t);
  }

  // ---------------------------------------------------------------------------
  // Writes that change no counter

  /** The reservation keeps everything its RPC history depends on, and only gains reasons to rest. */
  ghost predicate SameProgress(index: BlockIndex, a: Reservation, b: Reservation)
  {
    && b.request == a.request && b.kind == a.kind && b.expiresAt == a.expiresAt
    && b.blocks == a.blocks && b.invalidated == a.invalidated
    && b.invalidationAck == a.invalidationAck && b.cleanupAck == a.cleanupAck
    && (a.stopReason != Running ==> b.stopReason == a.stopReason)
    && (a.final.Some? ==> b.final == a.final)
    && ReservationOk(index, b)
  }

  /** Same slot and counters; the reservation, if any, at the same progress. */
  ghost predicate QuietWrite(index: BlockIndex, r: Record, n: Record)
  {
    && n.version == r.version + 1
    && n.armed == r.armed && n.owner == r.owner && n.completed == r.completed && n.blocks == r.blocks
    && (n.action.Some? <==> r.action.Some?)
    && (r.action.Some? ==> SameProgress(index, r.action.value, n.action.value))
  }

  lemma QuietBooks(index: BlockIndex, s: State, t: State)
    requires Inv(index, s) && QuietWrite(index, s.record, t.record)
    requires t.closed == s.closed && t.sent == s.sent && t.accounted == s.accounted
    ensures BooksOk(t)
    ensures forall uid :: Calm(s, t, uid)
  {
    forall uid: Uid
      ensures BookOk(t.record.action, t.record.armed, t.closed, t.sent, t.accounted, uid)
      ensures Calm(s, t, uid)
    {
      assert BookOk(s.record.action, s.record.armed, s.closed, s.sent, s.accounted, uid);
    }
  }

  lemma QuietWriteKeeps(index: BlockIndex, s: State, t: State, p: nat)
    requires Inv(index, s) && WrittenBy(s, t, p) && QuietWrite(index, s.record, t.record)
    requires t.closed == s.closed && t.ids == s.ids && t.accounted == s.accounted && t.reserved == s.reserved
    requires WorkerOk(t.workers[p], t.record, t.requests, t.closed, t.ids, t.sent, p)
    ensures Inv(index, t)
  {
    QuietBooks(index, s, t);
    HolderWrite(index, s, t, p);
  }

  /** After a step's own write the worker is back to Ready and its collector is untouched. */
  lemma ReturnedWorker(index: BlockIndex, s: State, t: State, p: nat)
    requires Inv(index, s) && WrittenBy(s, t, p) && p in s.workers
    requires t.workers[p] == Return(s.workers[p])
    requires t.record.armed == s.record.armed || s.workers[p].collector.Quiet?
    ensures WorkerOk(t.workers[p], t.record, t.requests, t.closed, t.ids, t.sent, p)
  {
    assert WorkerOk(s.workers[p], s.record, s.requests, s.closed, s.ids, s.sent, p);
  }

  /** A step writing from an unmoved version writes from the record itself. */
  lemma SnapshotIsRecord(index: BlockIndex, s: State, p: nat)
    requires Inv(index, s) && CanNote(s, p)
    ensures Snapshot(s.workers[p].pc).value == s.record
  {
    assert WorkerOk(s.workers[p], s.record, s.requests, s.closed, s.ids, s.sent, p);
  }

  lemma NoteKeeps(index: BlockIndex, s: State, p: nat, note: nat, ack: Ack)
    requires Inv(index, s) && CanNote(s, p)
    ensures Inv(index, DoNote(s, p, note, ack))
  {
    var t := DoNote(s, p, note, ack);
    SnapshotIsRecord(index, s, p);
    assert WrittenBy(s, t, p);
    NotedWorker(index, s, p, note, ack);
    QuietWriteKeeps(index, s, t, p);
  }

  lemma NotedWorker(index: BlockIndex, s: State, p: nat, note: nat, ack: Ack)
    requires Inv(index, s) && CanNote(s, p)
    ensures var t := DoNote(s, p, note, ack); WorkerOk(t.workers[p], t.record, t.requests, t.closed, t.ids, t.sent, p)
  {
    SnapshotIsRecord(index, s, p);
    assert WorkerOk(s.workers[p], s.record, s.requests, s.closed, s.ids, s.sent, p);
  }

  lemma HaltKeeps(index: BlockIndex, s: State, p: nat, reason: StopReason, uncertain: bool, unsafe: bool)
    requires Inv(index, s) && HoldsAction(s, p)
    ensures Inv(index, DoHalt(s, p, reason, uncertain, unsafe))
  {
    var t := DoHalt(s, p, reason, uncertain, unsafe);
    SnapshotIsRecord(index, s, p);
    StopKeepsSound(index, s.record.action.value, reason, uncertain, unsafe);
    assert WrittenBy(s, t, p);
    ReturnedWorker(index, s, t, p);
    QuietWriteKeeps(index, s, t, p);
  }

  lemma VerifyProgress(index: BlockIndex, a: Reservation)
    requires ReservationOk(index, a) && a.kind.Reorganization? && a.final.None? && VerifyReplacement(index, a).Accepted?
    ensures SameProgress(index, a, VerifyReplacement(index, a).next)
  {
    VerifyKeepsSound(index, a);
  }

  lemma FinishProgress(index: BlockIndex, a: Reservation, positions: seq<string>, tip: ChainPoint)
    requires ReservationOk(index, a) && Finish(index, a, positions, tip).Some?
    ensures SameProgress(index, a, Finish(index, a, positions, tip).value)
  {
    FinishKeepsSound(index, a, positions, tip);
  }

  lemma VerifyKeeps(index: BlockIndex, s: State, p: nat)
    requires Inv(index, s) && CanVerify(index, s, p)
    ensures Inv(index, DoVerify(index, s, p))
  {
    var t := DoVerify(index, s, p);
    SnapshotIsRecord(index, s, p);
    VerifyProgress(index, s.record.action.value);
    assert WrittenBy(s, t, p);
    ReturnedWorker(index, s, t, p);
    QuietWriteKeeps(index, s, t, p);
  }

  lemma SettleKeeps(index: BlockIndex, s: State, p: nat, positions: seq<string>, tip: ChainPoint)
    requires Inv(index, s) && CanSettle(index, s, p, positions, tip)
    ensures Inv(index, DoSettle(index, s, p, positions, tip))
  {
    var t := DoSettle(index, s, p, positions, tip);
    SnapshotIsRecord(index, s, p);
    FinishProgress(index, s.record.action.value, positions, tip);
    assert WrittenBy(s, t, p);
    ReturnedWorker(index, s, t, p);
    QuietWriteKeeps(index, s, t, p);
  }

  /** The scheduler's spec write: no process owns it, and only the offer moves. */
  lemma PublishKeeps(index: BlockIndex, s: State, offer: Offer)
    requires Inv(index, s)
    ensures Inv(index, ChangeApply(s, Publish(offer)))
  {
    var t := ChangeApply(s, Publish(offer));
    QuietBooks(index, s, t);
    ReconcilesFollow(index, s, t);
    RequestsFollow(index, s, t);
    forall q | q in t.workers
      ensures WorkerOk(t.workers[q], t.record, t.requests, t.closed, t.ids, t.sent, q)
    {
      assert WorkerOk(s.workers[q], s.record, s.requests, s.closed, s.ids, s.sent, q);
    }
  }

  // ---------------------------------------------------------------------------
  // Granting and giving back the record

  /** What the holder of an eligible view knows: the record is free and the request never held it. */
  lemma ReserveFacts(index: BlockIndex, s: State, p: nat, now: int, tip: Option<ChainPoint>)
    requires Inv(index, s) && CanReserve(index, s, p, now, tip)
    ensures var pc := s.workers[p].pc;
      && pc.snap == s.record && pc.uid !in s.closed && pc.uid in s.requests
      && s.requests[pc.uid].kind == pc.view.value.kind && s.requests[pc.uid].expiresAt == pc.view.value.expiresAt
  {
    assert WorkerOk(s.workers[p], s.record, s.requests, s.closed, s.ids, s.sent, p);
  }

  lemma ReserveHistory(index: BlockIndex, s: State, p: nat, admission: Admission, now: int, tip: Option<ChainPoint>)
    requires HistoryOk(index, s) && CanReserve(index, s, p, now, tip)
    requires s.workers[p].pc.snap == s.record && s.workers[p].pc.uid !in s.closed
    ensures HistoryOk(index, DoReserve(index, s, p, admission, now, tip))
  {
    var pc := s.workers[p].pc;
    var t := DoReserve(index, s, p, admission, now, tip);
    NewReservationOk(index, s.record, pc.uid, pc.view.value, admission, tip);
    assert RecordOk(index, t.record, t.closed);
    assert ReservedOk(t.reserved, t.record.action, t.closed);
  }

  lemma NewReservationOk(index: BlockIndex, snap: Record, uid: Uid, view: Request, admission: Admission, tip: Option<ChainPoint>)
    requires view.kind.Generation? ==> 1 <= view.kind.count
    requires view.kind.Reorganization? ==>
      tip.Some? && Header(index, tip.value.hash) == tip && Capture(index, view.kind.depth, tip.value).Some?
    ensures ReservationOk(index, NewReservation(index, snap, uid, view, admission, tip))
  {
    ReservedIsSound(index, uid, view.kind, admission, view.expiresAt, tip);
  }

  lemma ReserveBooks(index: BlockIndex, s: State, p: nat, admission: Admission, now: int, tip: Option<ChainPoint>)
    requires BooksOk(s) && CanReserve(index, s, p, now, tip)
    requires s.workers[p].pc.snap == s.record && s.workers[p].pc.uid !in s.closed
    ensures BooksOk(DoReserve(index, s, p, admission, now, tip))
    ensures forall uid :: Calm(s, DoReserve(index, s, p, admission, now, tip), uid)
  {
    var t := DoReserve(index, s, p, admission, now, tip);
    forall uid: Uid
      ensures BookOk(t.record.action, t.record.armed, t.closed, t.sent, t.accounted, uid)
      ensures Calm(s, t, uid)
    {
      assert BookOk(s.record.action, s.record.armed, s.closed, s.sent, s.accounted, uid);
    }
  }

  lemma ReserveKeeps(index: BlockIndex, s: State, p: nat, admission: Admission, now: int, tip: Option<ChainPoint>)
    requires Inv(index, s) && CanReserve(index, s, p, now, tip)
    ensures Inv(index, DoReserve(index, s, p, admission, now, tip))
  {
    var t := DoReserve(index, s, p, admission, now, tip);
    ReserveFacts(index, s, p, now, tip);
    ReserveHistory(index, s, p, admission, now, tip);
    ReserveBooks(index, s, p, admission, now, tip);
    assert WrittenBy(s, t, p);
    ReturnedWorker(index, s, t, p);
    OtherWorkers(index, s, t, p);
    ReconcilesFollow(index, s, t);
    ReservedRequests(index, s, t, s.workers[p].pc.uid);
  }

  lemma ReservedRequests(index: BlockIndex, s: State, t: State, uid: Uid)
    requires RequestsOk(s) && t.requests == s.requests && t.sent == s.sent && t.closed == s.closed
    requires t.record.action.Some? && t.record.action.value.request == uid && uid in s.requests
    requires AsAsked(s.requests[uid], t.record.action.value)
    requires forall u :: Calm(s, t, u)
    ensures RequestsOk(t)
  {
    forall u: Uid
      ensures RequestOk(t.requests, t.record.action, t.record.armed, t.closed, t.sent, u)
    {
      assert RequestOk(s.requests, s.record.action, s.record.armed, s.closed, s.sent, u);
      assert Calm(s, t, u);
    }
  }

  lemma ReleaseFacts(index: BlockIndex, s: State, p: nat)
    requires Inv(index, s) && CanRelease(s, p)
    ensures var pc := s.workers[p].pc;
      && pc.snap == s.record && pc.uid in s.requests
      && (Terminal(s.requests[pc.uid].status.phase) || !s.requests[pc.uid].present)
  {
    assert WorkerOk(s.workers[p], s.record, s.requests, s.closed, s.ids, s.sent, p);
  }

  lemma ReleaseBooks(s: State, p: nat)
    requires BooksOk(s) && CanRelease(s, p) && s.workers[p].pc.snap == s.record
    ensures BooksOk(DoRelease(s, p))
    ensures forall uid :: Calm(s, DoRelease(s, p), uid)
  {
    var t := DoRelease(s, p);
    forall uid: Uid
      ensures BookOk(t.record.action, t.record.armed, t.closed, t.sent, t.accounted, uid)
      ensures Calm(s, t, uid)
    {
      assert BookOk(s.record.action, s.record.armed, s.closed, s.sent, s.accounted, uid);
    }
  }

  lemma ReleaseHistory(index: BlockIndex, s: State, p: nat)
    requires HistoryOk(index, s) && CanRelease(s, p) && s.workers[p].pc.snap == s.record
    ensures HistoryOk(index, DoRelease(s, p))
  {
  }

  lemma ReleaseRequests(index: BlockIndex, s: State, p: nat)
    requires Inv(index, s) && CanRelease(s, p)
    requires forall uid :: Calm(s, DoRelease(s, p), uid)
    ensures RequestsOk(DoRelease(s, p))
  {
    var t := DoRelease(s, p);
    ReleaseFacts(index, s, p);
    forall uid: Uid
      ensures RequestOk(t.requests, t.record.action, t.record.armed, t.closed, t.sent, uid)
    {
      assert RequestOk(s.requests, s.record.action, s.record.armed, s.closed, s.sent, uid);
      assert Calm(s, t, uid);
    }
  }

  lemma ReleaseKeeps(index: BlockIndex, s: State, p: nat)
    requires Inv(index, s) && CanRelease(s, p)
    ensures Inv(index, DoRelease(s, p))
  {
    var t := DoRelease(s, p);
    ReleaseFacts(index, s, p);
    ReleaseHistory(index, s, p);
    ReleaseBooks(s, p);
    ReleaseRequests(index, s, p);
    assert WrittenBy(s, t, p);
    ReturnedWorker(index, s, t, p);
    OtherWorkers(index, s, t, p);
    ReconcilesFollow(index, s, t);
  }
}
