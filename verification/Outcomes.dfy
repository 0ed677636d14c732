/**
 * What each lifecycle outcome means, said once on the readings it stands on: the reservation, the outstanding RPC,
 * the clock and the deletion mark. Every outcome of every run goes back to one judgement made on such readings.
 */
module Outcomes {
  import opened Common
  import opened Reservations
  import opened Lifecycle
  import opened Authority
  import opened AuthorityInvariant
  import opened AuthorityMoves
  import opened AuthorityTheorems

  // ---------------------------------------------------------------------------
  // One judgement

  predicate Doubtful(a: Reservation)
  {
    a.effectUncertain || a.cleanupUnsafe
  }

  /** A suffix was invalidated and not yet reconsidered. */
  predicate Unrepaired(a: Reservation)
  {
    a.kind.Reorganization? && a.invalidationAck && !a.cleanupAck
  }

  /** Everything asked for was received, in time and without being stopped. */
  predicate Earned(a: Reservation, deletedAt: Option<int>)
  {
    && a.stopReason == Running
    && match a.kind
       case Generation(count, _) =>
         && a.blocks == count && a.lastCompletedAt.Some? && a.lastCompletedAt.value <= a.expiresAt
         && (deletedAt.Some? ==> a.lastCompletedAt.value <= deletedAt.value)
       case Reorganization(_, _) => a.final.Some? && a.cleanupAck
  }

  /** The action goes on: nothing is doubtful, due, stopped or finished. */
  predicate Ongoing(a: Reservation, armed: Outstanding, now: int, deletedAt: Option<int>)
  {
    && !Doubtful(a)
    && if armed.Outstanding? then now < a.expiresAt && deletedAt.None?
       else a.stopReason == Running && !Earned(a, deletedAt) && (Unrepaired(a) ==> now < a.expiresAt + 30_000_000_000)
  }

  /** Compensation is under way, or is all that is left to do, and its half minute has not run out. */
  predicate Compensating(a: Reservation, armed: Outstanding, now: int, deletedAt: Option<int>)
  {
    && !Doubtful(a) && a.kind.Reorganization? && now < a.expiresAt + 30_000_000_000
    && if armed.Outstanding? then armed.verb == Reconsider && (a.expiresAt <= now || deletedAt.Some?)
       else Unrepaired(a) && a.stopReason != Running
  }

  /** Stopped with nothing outstanding and nothing left to undo. */
  predicate StoppedFor(a: Reservation, armed: Outstanding, reason: Reason)
  {
    !Doubtful(a) && armed.Nothing? && !Unrepaired(a) && a.stopReason != Running && reason == StoppedBecause(a.stopReason)
  }

  /** An RPC is outstanding past the deadline or a deletion, and it is not a compensation still in time. */
  predicate Overtaken(a: Reservation, armed: Outstanding, now: int, deletedAt: Option<int>)
  {
    && armed.Outstanding? && (a.expiresAt <= now || deletedAt.Some?)
    && !(a.kind.Reorganization? && armed.verb == Reconsider && now < a.expiresAt + 30_000_000_000)
  }

  /** When the readings call for this phase, and for this reason if the phase is terminal. */
  predicate Calls(phase: Phase, reason: Reason, q: Request, bound: Option<Reservation>, armed: Outstanding,
                  available: bool, gone: bool, now: int)
  {
    match bound
    case None =>
      var admitted, over := q.status.admitted.Some?, q.deletedAt.Some? || q.expiresAt <= now;
      (match phase
       case Pending => !admitted && !over
       case Failed => reason == NoDispatch && !admitted && over && available
       case Inconclusive =>
         || (reason == ExecutionUnavailable && admitted)
         || (reason == AdmissionUnavailable && !admitted && over && !available)
       case _ => false)
    case Some(a) =>
      (match phase
       case Admitted => !gone && Ongoing(a, armed, now, q.deletedAt) && !a.started
       case Active => !gone && Ongoing(a, armed, now, q.deletedAt) && a.started
       case Recovering => !gone && Compensating(a, armed, now, q.deletedAt)
       case Completed => reason == ReceiptsComplete && !gone && !Doubtful(a) && armed.Nothing? && Earned(a, q.deletedAt)
       case Failed => !gone && StoppedFor(a, armed, reason) && !(a.stopReason == IdentityDiverged && a.started)
       case Inconclusive =>
         || (reason == EnvironmentDisposed && gone)
         || (reason == UncertainOutcome && !gone && (Doubtful(a) || Overtaken(a, armed, now, q.deletedAt)))
         || (reason == CleanupExpired && !gone && !Doubtful(a) && armed.Nothing? && Unrepaired(a) &&
             a.expiresAt + 30_000_000_000 <= now)
         || (!gone && StoppedFor(a, armed, reason) && a.stopReason == IdentityDiverged && a.started)
       case _ => false)
  }

  predicate Finished(phase: Phase)
  {
    phase.Completed? || phase.Recovered? || phase.Failed? || phase.Inconclusive?
  }

  /** The readings call for one outcome only. */
  lemma CallsAreExclusive(p1: Phase, r1: Reason, p2: Phase, r2: Reason, q: Request, bound: Option<Reservation>,
                          armed: Outstanding, available: bool, gone: bool, now: int)
    requires Calls(p1, r1, q, bound, armed, available, gone, now) && Calls(p2, r2, q, bound, armed, available, gone, now)
    ensures p1 == p2 && (Finished(p1) ==> r1 == r2)
  {
    match bound {
      case None =>
      case Some(a) =>
        BoundCallsAreExclusive(p1, r1, p2, r2, q, a, armed, available, gone, now);
    }
  }

  lemma BoundCallsAreExclusive(p1: Phase, r1: Reason, p2: Phase, r2: Reason, q: Request, a: Reservation,
                               armed: Outstanding, available: bool, gone: bool, now: int)
    requires Calls(p1, r1, q, Some(a), armed, available, gone, now) && Calls(p2, r2, q, Some(a), armed, available, gone, now)
    ensures p1 == p2 && (Finished(p1) ==> r1 == r2)
  {
    assert Earned(a, q.deletedAt) ==> !Unrepaired(a) && a.stopReason == Running;
  }

  lemma ProjectionIsCalled(q: Request, status: Status, a: Reservation, armed: Outstanding, available: bool, now: int)
    requires !Finished(status.phase)
    ensures var r := Project(status, a, armed, now, q.deletedAt);
      && Calls(r.phase, r.reason, q, Some(a), armed, available, false, now)
      && (!Finished(r.phase) ==> r.reason == status.reason)
      && r == status.(phase := r.phase, reason := r.reason)
  {
  }

  lemma JudgementIsCalled(q: Request, bound: Option<Reservation>, armed: Outstanding, available: bool, gone: bool, now: int)
    requires !Finished(q.status.phase)
    ensures var r := Reconciled(q, bound, armed, available, gone, now);
      Calls(r.phase, r.reason, q, bound, armed, available, gone, now) && (!Finished(r.phase) ==> r.reason == q.status.reason)
  {
    if bound.Some? {
      ProjectionIsCalled(q, CopyEvidence(q.status, bound.value), bound.value, armed, available, now);
    }
  }

  /**
   * A judgement of an unfinished request writes a phase, and with a terminal phase a reason, exactly when the
   * readings call for it; a finished one keeps both.
   */
  lemma OutcomesAreExact(q: Request, bound: Option<Reservation>, armed: Outstanding, available: bool, gone: bool, now: int,
                         phase: Phase, reason: Reason)
    ensures var r := Reconciled(q, bound, armed, available, gone, now);
      if Finished(q.status.phase) then r.phase == q.status.phase && r.reason == q.status.reason
      else
        && (Finished(phase) ==>
              (r.phase == phase && r.reason == reason <==> Calls(phase, reason, q, bound, armed, available, gone, now)))
        && (!Finished(phase) ==>
              (r.phase == phase && r.reason == q.status.reason <==>
               Calls(phase, reason, q, bound, armed, available, gone, now)))
  {
    if !Finished(q.status.phase) {
      JudgementIsCalled(q, bound, armed, available, gone, now);
      var r := Reconciled(q, bound, armed, available, gone, now);
      if Calls(phase, reason, q, bound, armed, available, gone, now) {
        CallsAreExclusive(phase, reason, r.phase, r.reason, q, bound, armed, available, gone, now);
      }
      if r.phase == phase && !Finished(phase) {
        UnfinishedCalls(phase, r.reason, reason, q, bound, armed, available, gone, now);
      }
    }
  }

  /** Before the end there is no reason yet. */
  lemma UnfinishedCalls(phase: Phase, r1: Reason, r2: Reason, q: Request, bound: Option<Reservation>, armed: Outstanding,
                        available: bool, gone: bool, now: int)
    requires !Finished(phase)
    ensures Calls(phase, r1, q, bound, armed, available, gone, now) <==> Calls(phase, r2, q, bound, armed, available, gone, now)
  {
  }

  /** What was read of the reservation is copied whatever the outcome; without one nothing but the outcome changes. */
  lemma EvidenceIsCopied(q: Request, bound: Option<Reservation>, armed: Outstanding, available: bool, gone: bool, now: int)
    ensures var r := Reconciled(q, bound, armed, available, gone, now);
      match bound
      case Some(a) =>
        && r.admitted == Some(a.admission) && r.started == a.started && r.blocks == a.blocks
        && r.lastDispatch == a.lastDispatch && r.cleanupAck == a.cleanupAck && r.final == a.final
      case None => r == q.status.(phase := r.phase, reason := r.reason)
  {
    if bound.Some? && !Finished(q.status.phase) {
      ProjectionIsCalled(q, CopyEvidence(q.status, bound.value), bound.value, armed, available, now);
    }
  }

  // ---------------------------------------------------------------------------
  // Runs by their prefixes

  lemma {:induction false} Splits(index: BlockIndex, s: State, events: seq<Event>, i: nat)
    requires Run(index, s, events) && i <= |events|
    ensures Run(index, s, events[..i]) && Run(index, After(index, s, events[..i]), events[i..])
    ensures After(index, After(index, s, events[..i]), events[i..]) == After(index, s, events)
    decreases i
  {
    if i == 0 {
      assert events[..0] == [] && events[0..] == events;
    } else {
      Splits(index, Apply(index, s, events[0]), events[1..], i - 1);
      assert events[..i][0] == events[0] && events[..i][1..] == events[1..][..i - 1] && events[1..][i - 1..] == events[i..];
    }
  }

  /** The last event of a run, and the run before it. */
  lemma LastEvent(index: BlockIndex, s: State, events: seq<Event>)
    requires Run(index, s, events) && events != []
    ensures var n := |events| - 1;
      && Run(index, s, events[..n]) && Enabled(index, After(index, s, events[..n]), events[n])
      && After(index, s, events) == Apply(index, After(index, s, events[..n]), events[n])
  {
    var n := |events| - 1;
    Splits(index, s, events, n);
    assert events[n..] == [events[n]] && [events[n]][1..] == [];
  }

  ghost predicate RecordStood(index: BlockIndex, s: State, events: seq<Event>, j: nat, record: Record)
  {
    j <= |events| && Run(index, s, events[..j]) && After(index, s, events[..j]).record == record
  }

  /** Whatever record a reconcile holds is the record as it stood at some earlier moment of the run. */
  lemma {:induction false} ReadingsAreReal(index: BlockIndex, s: State, events: seq<Event>, c: nat) returns (j: nat)
    requires Init(s) && Run(index, s, events)
    requires var t := After(index, s, events); c in t.reconciles && t.reconciles[c].Located? && t.reconciles[c].record.Some?
    ensures RecordStood(index, s, events, j, After(index, s, events).reconciles[c].record.value)
  {
    if events == [] {
      assert false;
    } else {
      var n := |events| - 1;
      LastEvent(index, s, events);
      var m, e := After(index, s, events[..n]), events[n];
      if e.Lifecycle? && e.c == c && e.judge.Locate? {
        j := n;
      } else {
        ReadingStays(index, m, e, c);
        j := ReadingsAreReal(index, s, events[..n], c);
        assert events[..n][..j] == events[..j];
      }
    }
  }

  lemma OtherReadingStays(m: State, d: nat, x: LifecycleMove, c: nat)
    requires LifecycleEnabled(m, d, x) && !(d == c && x.Locate?)
    requires var t := LifecycleApply(m, d, x); c in t.reconciles && t.reconciles[c].Located?
    ensures c in m.reconciles && m.reconciles[c] == LifecycleApply(m, d, x).reconciles[c]
  {
  }

  lemma ReadingStays(index: BlockIndex, m: State, e: Event, c: nat)
    requires Enabled(index, m, e) && !(e.Lifecycle? && e.c == c && e.judge.Locate?)
    requires var t := Apply(index, m, e); c in t.reconciles && t.reconciles[c].Located?
    ensures c in m.reconciles && m.reconciles[c] == Apply(index, m, e).reconciles[c]
  {
    match e {
      case Stepping(p, x) => StepFrame(index, m, p, x);
      case Arms(p, x) => ArmFrame(m, p, x);
      case Collecting(p, x) => CollectorFrame(m, p, x);
      case Cluster(x) => ChangeFrame(m, x);
      case Lifecycle(d, x) => OtherReadingStays(m, d, x, c);
    }
  }

  // ---------------------------------------------------------------------------
  // Where outcomes come from

  /** Event i judges the request, reading the record as it stood at moment j of the run, or no record. */
  ghost predicate Judged(index: BlockIndex, s: State, events: seq<Event>, i: nat, uid: Uid)
  {
    i < |events| && events[i].Lifecycle? && events[i].judge.Judge? && Run(index, s, events[..i]) &&
    var m, c := After(index, s, events[..i]), events[i].c;
    && c in m.reconciles && m.reconciles[c].Located? && m.reconciles[c].uid == uid && uid in m.requests
    && m.reconciles[c].held == m.requests[uid]
    && (m.reconciles[c].record.Some? ==> exists j: nat :: j <= i && RecordStood(index, s, events, j, m.reconciles[c].record.value))
  }

  /** The readings of that judgement call for this outcome. */
  ghost predicate Ruled(index: BlockIndex, s: State, events: seq<Event>, i: nat, uid: Uid, phase: Phase, reason: Reason)
  {
    Judged(index, s, events, i, uid) &&
    var m := After(index, s, events[..i]);
    var r := m.reconciles[events[i].c];
    && !Finished(m.requests[uid].status.phase)
    && Calls(phase, reason, m.requests[uid], BoundTo(r.record, uid), ArmedVerb(r.record), r.available,
             events[i].judge.gone, events[i].judge.now)
  }

  lemma JudgementIsReal(index: BlockIndex, s: State, events: seq<Event>, uid: Uid)
    requires Init(s) && Run(index, s, events) && events != [] && Run(index, s, events[..|events| - 1])
    requires var n := |events| - 1; var m := After(index, s, events[..n]);
      && Enabled(index, m, events[n]) && events[n].Lifecycle? && events[n].judge.Judge?
      && m.reconciles[events[n].c].uid == uid
    ensures Judged(index, s, events, |events| - 1, uid)
  {
    var n := |events| - 1;
    var m, c := After(index, s, events[..n]), events[n].c;
    InitHolds(index, s);
    RunKeeps(index, s, events[..n]);
    assert ReconcileOk(m.reconciles[c], m.requests, m.record.action, m.record.armed, m.closed);
    if m.reconciles[c].record.Some? {
      var j := ReadingsAreReal(index, s, events[..n], c);
      assert events[..n][..j] == events[..j];
      assert RecordStood(index, s, events, j, m.reconciles[c].record.value);
    }
  }

  /** Only a judgement of the request itself changes its status. */
  ghost predicate StatusStays(m: State, t: State, uid: Uid)
  {
    uid in t.requests ==>
      if uid in m.requests then t.requests[uid].status == m.requests[uid].status else t.requests[uid].status.phase == Pending
  }

  lemma ChangesKeepStatus(m: State, x: Change, uid: Uid)
    requires ChangeEnabled(m, x)
    ensures StatusStays(m, ChangeApply(m, x), uid)
  {
  }

  lemma OtherJudgementsKeepStatus(index: BlockIndex, m: State, c: nat, x: LifecycleMove, uid: Uid)
    requires Inv(index, m) && LifecycleEnabled(m, c, x) && !(x.Judge? && m.reconciles[c].uid == uid)
    ensures StatusStays(m, LifecycleApply(m, c, x), uid)
  {
    if x.Finalize? {
      assert ReconcileOk(m.reconciles[c], m.requests, m.record.action, m.record.armed, m.closed);
    }
  }

  ghost predicate Judges(m: State, e: Event, uid: Uid)
  {
    e.Lifecycle? && e.judge.Judge? && e.c in m.reconciles && m.reconciles[e.c].uid == uid
  }

  lemma EventKeepsStatus(index: BlockIndex, m: State, e: Event, uid: Uid)
    requires Inv(index, m) && Enabled(index, m, e) && !Judges(m, e, uid)
    ensures StatusStays(m, Apply(index, m, e), uid)
  {
    match e {
      case Stepping(p, x) => StepFrame(index, m, p, x);
      case Arms(p, x) => ArmFrame(m, p, x);
      case Collecting(p, x) => CollectorFrame(m, p, x);
      case Cluster(x) => ChangesKeepStatus(m, x, uid);
      case Lifecycle(c, x) => OtherJudgementsKeepStatus(index, m, c, x, uid);
    }
  }

  /** A judgement leaves a finished request as it was, or the readings call for what it writes. */
  lemma JudgementRules(index: BlockIndex, s: State, events: seq<Event>, uid: Uid)
    requires Init(s) && Run(index, s, events) && events != [] && Run(index, s, events[..|events| - 1])
    requires var n := |events| - 1; var m := After(index, s, events[..n]);
      && Enabled(index, m, events[n]) && Judges(m, events[n], uid) && After(index, s, events) == Apply(index, m, events[n])
    ensures var n := |events| - 1; var m := After(index, s, events[..n]); var t := After(index, s, events);
      && uid in m.requests && uid in t.requests
      && if Finished(m.requests[uid].status.phase)
         then t.requests[uid].status.phase == m.requests[uid].status.phase &&
              t.requests[uid].status.reason == m.requests[uid].status.reason
         else Ruled(index, s, events, n, uid, t.requests[uid].status.phase, t.requests[uid].status.reason)
  {
    var n := |events| - 1;
    var m, e := After(index, s, events[..n]), events[n];
    JudgementIsReal(index, s, events, uid);
    var r := m.reconciles[e.c];
    if !Finished(m.requests[uid].status.phase) {
      JudgementIsCalled(m.requests[uid], BoundTo(r.record, uid), ArmedVerb(r.record), r.available, e.judge.gone, e.judge.now);
    }
  }

  /**
   * Every phase a request ever shows after its first was called for by the readings of one judgement, made on the
   * request as it then was and on a record as it stood at that moment or earlier; a terminal one keeps the reason
   * it was given there.
   */
  lemma {:induction false} OutcomesHaveCauses(index: BlockIndex, s: State, events: seq<Event>, uid: Uid) returns (i: nat)
    requires Init(s) && Run(index, s, events)
    requires uid in After(index, s, events).requests && After(index, s, events).requests[uid].status.phase != Pending
    ensures var status := After(index, s, events).requests[uid].status;
      Ruled(index, s, events, i, uid, status.phase, status.reason)
  {
    if events == [] {
      assert false;
    } else {
      var ruled := LastEventRules(index, s, events, uid);
      if ruled {
        i := |events| - 1;
      } else {
        i := OutcomesHaveCauses(index, s, events[..|events| - 1], uid);
        var status := After(index, s, events).requests[uid].status;
        CauseStays(index, s, events, i, uid, status.phase, status.reason);
      }
    }
  }

  /** The last event gave the request its phase, or left it as it was. */
  lemma LastEventRules(index: BlockIndex, s: State, events: seq<Event>, uid: Uid) returns (ruled: bool)
    requires Init(s) && Run(index, s, events) && events != []
    requires uid in After(index, s, events).requests && After(index, s, events).requests[uid].status.phase != Pending
    ensures Run(index, s, events[..|events| - 1])
    ensures var status, m := After(index, s, events).requests[uid].status, After(index, s, events[..|events| - 1]);
      if ruled then Ruled(index, s, events, |events| - 1, uid, status.phase, status.reason)
      else uid in m.requests && m.requests[uid].status.phase == status.phase && m.requests[uid].status.reason == status.reason
  {
    var n := |events| - 1;
    LastEvent(index, s, events);
    var m, e := After(index, s, events[..n]), events[n];
    if Judges(m, e, uid) {
      JudgementRules(index, s, events, uid);
      ruled := !Finished(m.requests[uid].status.phase);
    } else {
      InitHolds(index, s);
      RunKeeps(index, s, events[..n]);
      EventKeepsStatus(index, m, e, uid);
      ruled := false;
    }
  }

  lemma CauseStays(index: BlockIndex, s: State, events: seq<Event>, i: nat, uid: Uid, phase: Phase, reason: Reason)
    requires events != [] && Ruled(index, s, events[..|events| - 1], i, uid, phase, reason)
    ensures Ruled(index, s, events, i, uid, phase, reason)
  {
    var front := events[..|events| - 1];
    assert front[..i] == events[..i] && front[i] == events[i];
    var m, c := After(index, s, events[..i]), events[i].c;
    if m.reconciles[c].record.Some? {
      var j: nat :| j <= i && RecordStood(index, s, front, j, m.reconciles[c].record.value);
      assert front[..j] == events[..j];
      assert RecordStood(index, s, events, j, m.reconciles[c].record.value);
    }
  }

  /** A judgement that finds the request's reservation in order, before the deadline and with nothing against it. */
  ghost predicate Undisturbed(index: BlockIndex, s: State, events: seq<Event>, i: nat, uid: Uid)
    requires Judged(index, s, events, i, uid)
  {
    var m := After(index, s, events[..i]);
    var a := BoundTo(m.reconciles[events[i].c].record, uid);
    && a.Some? && !events[i].judge.gone && events[i].judge.now < a.value.expiresAt && m.requests[uid].deletedAt.None?
    && !a.value.effectUncertain && !a.value.cleanupUnsafe && a.value.stopReason == Running
  }

  /**
   * As long as every judgement of a request finds its reservation, before the deadline, not deleted, stopped,
   * uncertain, unsafe or disposed, the request is never Inconclusive, Failed or Recovering, whatever RPC is
   * outstanding: it goes on until it is Completed.
   */
  lemma UndisturbedRequestsGoOn(index: BlockIndex, s: State, events: seq<Event>, uid: Uid)
    requires Init(s) && Run(index, s, events) && uid in After(index, s, events).requests
    requires forall i: nat :: Judged(index, s, events, i, uid) ==> Undisturbed(index, s, events, i, uid)
    ensures var phase := After(index, s, events).requests[uid].status.phase;
      phase.Pending? || phase.Admitted? || phase.Active? || phase.Completed?
  {
    if After(index, s, events).requests[uid].status.phase != Pending {
      var i := OutcomesHaveCauses(index, s, events, uid);
      assert Undisturbed(index, s, events, i, uid);
    }
  }
}
