/**
 * The finite request objects and their lifecycle controller. The controller owns a request's status and
 * finalizer; it reads the request, then the execution record, and writes back only onto an unchanged
 * request.
 */
module Lifecycle {
  import opened Common
  import opened Reservations

  datatype Phase = Pending | Admitted | Active | Recovering | Completed | Recovered | Failed | Inconclusive

  predicate Terminal(phase: Phase)
  {
    phase.Completed? || phase.Recovered? || phase.Failed? || phase.Inconclusive?
  }

  datatype Reason =
    | Unfinished | NoDispatch | AdmissionUnavailable | ExecutionUnavailable | EnvironmentDisposed
    | UncertainOutcome | ReceiptsComplete | CleanupExpired | StoppedBecause(stop: StopReason)

  /** The lifecycle's own fields of a request, written together. */
  datatype Status = Status(
    phase: Phase,
    reason: Reason,
    admitted: Option<Admission>,
    started: bool,
    blocks: int,
    lastDispatch: Option<Id>,
    cleanupAck: bool,
    final: Option<ChainPoint>)

  datatype Request = Request(
    version: nat,
    present: bool,
    kind: Kind,
    expiresAt: int,
    deletedAt: Option<int>,
    finalizer: bool,
    status: Status)

  function Created(kind: Kind, expiresAt: int): (q: Request)
  {
    Request(0, true, kind, expiresAt, None, false, Status(Pending, Unfinished, None, false, 0, None, false, None))
  }

  /** finish: the first terminal observation wins. */
  function Conclude(status: Status, phase: Phase, reason: Reason): (r: Status)
    ensures Terminal(status.phase) ==> r == status
    ensures r.admitted == status.admitted
  {
    if Terminal(status.phase) then status else status.(phase := phase, reason := reason)
  }

  /** copyEvidence: attribution and receipts are copied whatever the outcome is. */
  function CopyEvidence(status: Status, a: Reservation): (r: Status)
    ensures r.phase == status.phase && r.reason == status.reason && r.admitted == Some(a.admission)
  {
    status.(admitted := Some(a.admission), started := a.started, blocks := a.blocks,
            lastDispatch := a.lastDispatch, cleanupAck := a.cleanupAck, final := a.final)
  }

  /** What the controller sees of the record's outstanding RPC. */
  datatype Outstanding = Nothing | Outstanding(verb: Verb)

  predicate ReceiptsTimely(a: Reservation, deletedAt: Option<int>)
  {
    a.lastCompletedAt.Some? && a.lastCompletedAt.value <= a.expiresAt &&
    (deletedAt.None? || a.lastCompletedAt.value <= deletedAt.value)
  }

  const CLEANUP_HORIZON := 30_000_000_000

  /** project: derive the phase of a bound request from its reservation. */
  function Project(status: Status, a: Reservation, armed: Outstanding, now: int, deletedAt: Option<int>): (r: Status)
    ensures Terminal(status.phase) ==> r == status
    ensures r.admitted == status.admitted
  {
    if Terminal(status.phase) then status
    else if a.effectUncertain || a.cleanupUnsafe then Conclude(status, Inconclusive, UncertainOutcome)
    else if Complete(a) && armed.Nothing? && a.stopReason == Running &&
            (a.kind.Reorganization? || ReceiptsTimely(a, deletedAt))
    then Conclude(status, Completed, ReceiptsComplete)
    else if (a.expiresAt <= now || deletedAt.Some?) && armed.Outstanding? then
      if a.kind.Reorganization? && armed.verb == Reconsider && now < a.expiresAt + CLEANUP_HORIZON
      then status.(phase := Recovering)
      else Conclude(status, Inconclusive, UncertainOutcome)
    else if a.kind.Reorganization? && a.invalidationAck && !a.cleanupAck && a.expiresAt + CLEANUP_HORIZON <= now
    then Conclude(status, Inconclusive, CleanupExpired)
    else if a.stopReason != Running && armed.Nothing? then
      if a.kind.Reorganization? && a.invalidationAck && !a.cleanupAck then status.(phase := Recovering)
      else Conclude(status,
                    if a.stopReason == IdentityDiverged && a.started then Inconclusive else Failed,
                    StoppedBecause(a.stopReason))
    else status.(phase := if a.started then Active else Admitted)
  }

  /** The receipts a completed outcome stands on. */
  predicate Complete(a: Reservation)
  {
    match a.kind
    case Generation(count, _) => a.blocks == count
    case Reorganization(_, _) => a.final.Some? && a.cleanupAck
  }

  /**
   * Reconcile's status computation. `bound` carries the reservation naming this request when the record
   * read holds one; `available` says whether the inventory read was conclusive.
   */
  function Reconciled(q: Request, bound: Option<Reservation>, armed: Outstanding, available: bool, gone: bool, now: int)
    : (r: Status)
    ensures Terminal(q.status.phase) ==> r.phase == q.status.phase && r.reason == q.status.reason
    ensures q.status.admitted.Some? ==> r.admitted.Some?
  {
    match bound
    case Some(a) =>
      var copied := CopyEvidence(q.status, a);
      if gone then Conclude(copied, Inconclusive, EnvironmentDisposed)
      else Project(copied, a, armed, now, q.deletedAt)
    case None =>
      if Terminal(q.status.phase) then q.status
      else if q.status.admitted.Some? then Conclude(q.status, Inconclusive, ExecutionUnavailable)
      else if q.deletedAt.Some? || q.expiresAt <= now then
        if available then Conclude(q.status, Failed, NoDispatch)
        else Conclude(q.status, Inconclusive, AdmissionUnavailable)
      else q.status.(phase := Pending)
  }

  /** The status copy a reconcile overwrites field by field before its guarded write. */
  class Draft {
    var phase: Phase
    var reason: Reason
    var admitted: Option<Admission>
    var started: bool
    var blocks: int
    var lastDispatch: Option<Id>
    var cleanupAck: bool
    var final: Option<ChainPoint>

    ghost function View(): (s: Status)
      reads this
    {
      Status(phase, reason, admitted, started, blocks, lastDispatch, cleanupAck, final)
    }

    constructor (s: Status)
      ensures View() == s
    {
      phase, reason, admitted, started := s.phase, s.reason, s.admitted, s.started;
      blocks, lastDispatch, cleanupAck, final := s.blocks, s.lastDispatch, s.cleanupAck, s.final;
    }

    /** finish */
    method Finish(outcome: Phase, because: Reason)
      modifies this
      ensures View() == Conclude(old(View()), outcome, because)
    {
      if Terminal(phase) {
        return;
      }
      phase, reason := outcome, because;
    }

    /** copyEvidence */
    method Copy(a: Reservation)
      modifies this
      ensures View() == CopyEvidence(old(View()), a)
    {
      admitted, started := Some(a.admission), a.started;
      blocks, lastDispatch := a.blocks, a.lastDispatch;
      cleanupAck, final := a.cleanupAck, a.final;
    }

    /** project */
    method Derive(a: Reservation, armed: Outstanding, now: int, deletedAt: Option<int>)
      modifies this
      ensures View() == Project(old(View()), a, armed, now, deletedAt)
    {
      if Terminal(phase) {
        return;
      }
      if a.effectUncertain || a.cleanupUnsafe {
        Finish(Inconclusive, UncertainOutcome);
        return;
      }
      var reorganizing := a.kind.Reorganization?;
      var complete := if reorganizing then a.final.Some? && a.cleanupAck else a.blocks == a.kind.count;
      if complete && armed.Nothing? && a.stopReason == Running && (reorganizing || ReceiptsTimely(a, deletedAt)) {
        Finish(Completed, ReceiptsComplete);
        return;
      }
      if (now >= a.expiresAt || deletedAt.Some?) && armed.Outstanding? {
        if reorganizing && armed.verb == Reconsider && now < a.expiresAt + CLEANUP_HORIZON {
          phase := Recovering;
          return;
        }
        Finish(Inconclusive, UncertainOutcome);
        return;
      }
      if reorganizing && a.invalidationAck && !a.cleanupAck && now >= a.expiresAt + CLEANUP_HORIZON {
        Finish(Inconclusive, CleanupExpired);
        return;
      }
      if a.stopReason != Running && armed.Nothing? {
        if reorganizing && a.invalidationAck && !a.cleanupAck {
          phase := Recovering;
          return;
        }
        var outcome := Failed;
        if a.stopReason == IdentityDiverged && a.started {
          outcome := Inconclusive;
        }
        Finish(outcome, StoppedBecause(a.stopReason));
        return;
      }
      phase := Admitted;
      if a.started {
        phase := Active;
      }
    }

    /** The status computation of Reconcile, in place. */
    method Reconcile(
      q: Request, bound: Option<Reservation>, armed: Outstanding, available: bool, gone: bool, now: int)
      requires View() == q.status
      modifies this
      ensures View() == Reconciled(q, bound, armed, available, gone, now)
    {
      if bound.Some? {
        Copy(bound.value);
        if gone {
          Finish(Inconclusive, EnvironmentDisposed);
        } else {
          Derive(bound.value, armed, now, q.deletedAt);
        }
      } else if !Terminal(phase) {
        if admitted.Some? {
          Finish(Inconclusive, ExecutionUnavailable);
        } else if q.deletedAt.Some? || now >= q.expiresAt {
          if available {
            Finish(Failed, NoDispatch);
          } else {
            Finish(Inconclusive, AdmissionUnavailable);
          }
        } else {
          phase := Pending;
        }
      }
    }
  }

  /** The terminal outcome that promises nothing was ever sent. */
  predicate NoDispatched(status: Status)
  {
    status.phase == Failed && status.reason == NoDispatch
  }

  /** Which readings a new terminal outcome stands on, and that an old one is never replaced. */
  lemma OutcomeStandsOn(q: Request, bound: Option<Reservation>, armed: Outstanding, available: bool, gone: bool, now: int)
    ensures var r := Reconciled(q, bound, armed, available, gone, now);
      && (Terminal(q.status.phase) ==> r.phase == q.status.phase && r.reason == q.status.reason)
      && (!Terminal(q.status.phase) && r.phase == Completed ==> bound.Some? && Complete(bound.value) && armed.Nothing?)
      && (!Terminal(q.status.phase) && r.phase == Failed && r.reason != NoDispatch ==>
            && bound.Some? && armed.Nothing? && bound.value.stopReason != Running
            && (bound.value.kind.Reorganization? && bound.value.invalidationAck ==> bound.value.cleanupAck))
      && (!Terminal(q.status.phase) && NoDispatched(r) ==> bound.None? && q.status.admitted.None?)
  {
  }

  /** The facts about a request that no later state takes back. */
  ghost predicate Extends(earlier: Request, later: Request)
  {
    && earlier.version <= later.version
    && (earlier.version == later.version ==> earlier == later)
    && earlier.kind == later.kind && earlier.expiresAt == later.expiresAt
    && (!earlier.present ==> !later.present)
    && (Terminal(earlier.status.phase) ==>
          later.status.phase == earlier.status.phase && later.status.reason == earlier.status.reason)
    && (earlier.status.admitted.Some? ==> later.status.admitted.Some?)
    && (earlier.status.admitted.Some? && !NoDispatched(earlier.status) ==> !NoDispatched(later.status))
  }
}
