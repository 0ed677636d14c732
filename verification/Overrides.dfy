/**
 * Temporary timing overrides: schedulers share one activation slot by compare-and-swap, and a separate controller
 * keeps each request's lifecycle status. Reads and writes of any number of schedulers and controllers interleave.
 */
module Overrides {
  import opened Common

  datatype Phase = NoPhase | Pending | Active | Completed | Expired | Cancelled

  /** The retained activation: its request and the timing it pinned. */
  datatype Activation = Activation(uid: Uid, timing: nat, started: int, expires: int)

  datatype Request = Request(
    version: nat,
    created: int,
    admission: Option<Activation>,
    phase: Phase,
    deleting: bool,
    finalizer: bool)

  const PENDING_SECONDS := 300
  const LONGEST_SECONDS := 3600

  /** overrideTerminal */
  predicate Terminal(phase: Phase)
  {
    phase.Completed? || phase.Expired? || phase.Cancelled?
  }

  // ---------------------------------------------------------------------------
  // Decisions

  /** Which listed requests may be activated into an empty slot. */
  predicate Eligible(r: Request, now: int)
  {
    && !r.deleting && !Terminal(r.phase) && r.admission.None? && r.finalizer
    && now < r.created + PENDING_SECONDS
  }

  /** Whether a slot found invalid is released, given the request that was read, if it still exists. */
  predicate MayWithdraw(active: Activation, seen: Option<Request>, now: int)
  {
    seen.Some? ==>
      && seen.value.admission == Some(active)
      && (active.expires <= now ==> Terminal(seen.value.phase))
  }

  datatype Status = Status(admission: Option<Activation>, phase: Phase)

  /** The controller's next status, from the request and the activation it found for it. */
  function NextStatus(r: Request, active: Option<Activation>, now: int): (s: Status)
  {
    match active
    case Some(a) =>
      Status(active, if r.deleting then Cancelled else if a.expires <= now then Completed else Active)
    case None =>
      if Terminal(r.phase) then Status(r.admission, r.phase)
      else if r.admission.Some? || r.deleting then Status(r.admission, Cancelled)
      else if r.created + PENDING_SECONDS <= now then Status(r.admission, Expired)
      else Status(r.admission, Pending)
  }

  /** The status copy the controller changes branch by branch. */
  class Draft {
    var admission: Option<Activation>
    var phase: Phase

    constructor (r: Request)
      ensures admission == r.admission && phase == r.phase
    {
      admission, phase := r.admission, r.phase;
    }

    method Observe(r: Request, active: Option<Activation>, now: int)
      requires admission == r.admission && phase == r.phase
      modifies this
      ensures Status(admission, phase) == NextStatus(r, active, now)
    {
      if active.Some? {
        admission := active;
        phase := Active;
        if r.deleting {
          phase := Cancelled;
        } else if now >= active.value.expires {
          phase := Completed;
        }
      } else if !Terminal(phase) {
        if admission.Some? {
          phase := Cancelled;
        } else if r.deleting {
          phase := Cancelled;
        } else if now >= r.created + PENDING_SECONDS {
          phase := Expired;
        } else {
          phase := Pending;
        }
      }
    }
  }

  /** applyStatus: nothing is written when nothing changed. */
  function WithStatus(r: Request, s: Status): (q: Request)
  {
    if s == Status(r.admission, r.phase) then r
    else r.(version := r.version + 1, admission := s.admission, phase := s.phase)
  }

  /** The finalizer is dropped once the request is closed and no activation was found, and added before that. */
  function WithFinalizer(r: Request, active: Option<Activation>): (q: Request)
  {
    if active.None? && Terminal(r.phase) then
      if r.finalizer then r.(version := r.version + 1, finalizer := false) else r
    else if !r.finalizer && !r.deleting then r.(version := r.version + 1, finalizer := true)
    else r
  }

  // ---------------------------------------------------------------------------
  // The system

  datatype Scheduler =
    | HasSlot(version: nat, slot: Option<Activation>)
    | SawRequest(version: nat, active: Activation, seen: Option<Request>)
    | Releasing(version: nat, active: Activation, seen: Option<Request>, at: int)
    | Picked(version: nat, uid: Uid, listed: Request)
    | Admitting(version: nat, listed: Request, active: Activation)

  datatype Controller =
    | HasRequest(uid: Uid, seen: Request)
    | HasBoth(uid: Uid, seen: Request, active: Option<Activation>)
    | Wrote(uid: Uid, seen: Request, active: Option<Activation>)

  /** A released slot, the request as it stood at that moment, and what the decision was made on, and when. */
  datatype Withdrawal = Withdrawal(active: Activation, request: Option<Request>, seen: Option<Request>, at: int)

  /**
   * `activated`, `withdrawn` and `disowned` are history: slots taken, slots released, and requests whose controller
   * found no current network to hold a slot.
   */
  datatype State = State(
    now: int,
    version: nat,
    slot: Option<Activation>,
    requests: map<Uid, Request>,
    used: set<Uid>,
    schedulers: map<nat, Scheduler>,
    controllers: map<nat, Controller>,
    activated: seq<Activation>,
    withdrawn: seq<Withdrawal>,
    disowned: set<Uid>)

  predicate Boot(s: State)
  {
    s == State(0, 0, None, map[], {}, map[], map[], [], [], {})
  }

  datatype SchedulerMove =
    | ReadSlot
    | ReadRequest
    | Decide
    | Withdraw
    | List(uid: Uid)
    | Admit(timing: nat, seconds: int)
    | Activate
    | Stop

  datatype ControllerMove =
    | Fetch(uid: Uid)
    | FetchSlot(rootCurrent: bool)
    | WriteStatus
    | PatchFinalizer
    | Quit

  datatype World =
    | Create(uid: Uid)
    | Delete(uid: Uid)
    | Collect(uid: Uid)
    | Touch(uid: Uid)
    | Tick(seconds: nat)

  datatype Event =
    | Schedules(k: nat, m: SchedulerMove)
    | Controls(j: nat, c: ControllerMove)
    | Changes(w: World)

  function Lookup(requests: map<Uid, Request>, uid: Uid): (r: Option<Request>)
  {
    if uid in requests then Some(requests[uid]) else None
  }

  predicate SchedulerEnabled(s: State, k: nat, m: SchedulerMove)
  {
    match m
    case ReadSlot => k !in s.schedulers
    case ReadRequest => k in s.schedulers && s.schedulers[k].HasSlot? && s.schedulers[k].slot.Some?
    case Decide =>
      k in s.schedulers && s.schedulers[k].SawRequest? &&
      MayWithdraw(s.schedulers[k].active, s.schedulers[k].seen, s.now)
    case Withdraw => k in s.schedulers && s.schedulers[k].Releasing? && s.schedulers[k].version == s.version
    case List(uid) =>
      k in s.schedulers && s.schedulers[k].HasSlot? && s.schedulers[k].slot.None? && uid in s.requests
    case Admit(_, seconds) =>
      k in s.schedulers && s.schedulers[k].Picked? &&
      Eligible(s.schedulers[k].listed, s.now) && 0 < seconds <= LONGEST_SECONDS
    case Activate => k in s.schedulers && s.schedulers[k].Admitting? && s.schedulers[k].version == s.version
    case Stop => true
  }

  function SchedulerApply(s: State, k: nat, m: SchedulerMove): (t: State)
    requires SchedulerEnabled(s, k, m)
  {
    match m
    case ReadSlot => s.(schedulers := s.schedulers[k := HasSlot(s.version, s.slot)])
    case ReadRequest =>
      var h := s.schedulers[k];
      s.(schedulers := s.schedulers[k := SawRequest(h.version, h.slot.value, Lookup(s.requests, h.slot.value.uid))])
    case Decide =>
      var p := s.schedulers[k];
      s.(schedulers := s.schedulers[k := Releasing(p.version, p.active, p.seen, s.now)])
    case Withdraw =>
      var p := s.schedulers[k];
      s.(version := s.version + 1, slot := None, schedulers := s.schedulers - {k},
         withdrawn := s.withdrawn + [Withdrawal(p.active, Lookup(s.requests, p.active.uid), p.seen, p.at)])
    case List(uid) => s.(schedulers := s.schedulers[k := Picked(s.schedulers[k].version, uid, s.requests[uid])])
    case Admit(timing, seconds) =>
      var p := s.schedulers[k];
      s.(schedulers :=
           s.schedulers[k := Admitting(p.version, p.listed, Activation(p.uid, timing, s.now, s.now + seconds))])
    case Activate =>
      var a := s.schedulers[k].active;
      s.(version := s.version + 1, slot := Some(a), schedulers := s.schedulers - {k}, activated := s.activated + [a])
    case Stop => s.(schedulers := s.schedulers - {k})
  }

  predicate ControllerEnabled(s: State, j: nat, c: ControllerMove)
  {
    match c
    case Fetch(uid) => j !in s.controllers && uid in s.requests
    case FetchSlot(_) => j in s.controllers && s.controllers[j].HasRequest?
    case WriteStatus => j in s.controllers && s.controllers[j].HasBoth? && Current(s, s.controllers[j])
    case PatchFinalizer => j in s.controllers && s.controllers[j].Wrote? && Current(s, s.controllers[j])
    case Quit => true
  }

  /** The resource-version guard. */
  predicate Current(s: State, c: Controller)
  {
    c.uid in s.requests && s.requests[c.uid].version == c.seen.version
  }

  function ControllerApply(s: State, j: nat, c: ControllerMove): (t: State)
    requires ControllerEnabled(s, j, c)
  {
    match c
    case Fetch(uid) => s.(controllers := s.controllers[j := HasRequest(uid, s.requests[uid])])
    case FetchSlot(rootCurrent) =>
      var h := s.controllers[j];
      var active := if rootCurrent && s.slot.Some? && s.slot.value.uid == h.uid then s.slot else None;
      s.(controllers := s.controllers[j := HasBoth(h.uid, h.seen, active)],
         disowned := if rootCurrent then s.disowned else s.disowned + {h.uid})
    case WriteStatus =>
      var h := s.controllers[j];
      var r := WithStatus(h.seen, NextStatus(h.seen, h.active, s.now));
      s.(requests := s.requests[h.uid := r], controllers := s.controllers[j := Wrote(h.uid, r, h.active)])
    case PatchFinalizer =>
      var h := s.controllers[j];
      s.(requests := s.requests[h.uid := WithFinalizer(h.seen, h.active)], controllers := s.controllers - {j})
    case Quit => s.(controllers := s.controllers - {j})
  }

  predicate WorldEnabled(s: State, w: World)
  {
    match w
    case Create(uid) => uid !in s.used
    case Delete(uid) => uid in s.requests
    case Collect(uid) => uid in s.requests && s.requests[uid].deleting && !s.requests[uid].finalizer
    case Touch(uid) => uid in s.requests
    case Tick(_) => true
  }

  function WorldApply(s: State, w: World): (t: State)
    requires WorldEnabled(s, w)
  {
    match w
    case Create(uid) =>
      s.(requests := s.requests[uid := Request(0, s.now, None, NoPhase, false, false)], used := s.used + {uid})
    case Delete(uid) =>
      var r := s.requests[uid];
      s.(requests := s.requests[uid := r.(version := r.version + 1, deleting := true)])
    case Collect(uid) => s.(requests := s.requests - {uid})
    case Touch(uid) => s.(requests := s.requests[uid := s.requests[uid].(version := s.requests[uid].version + 1)])
    case Tick(seconds) => s.(now := s.now + seconds)
  }

  predicate Enabled(s: State, e: Event)
  {
    match e
    case Schedules(k, m) => SchedulerEnabled(s, k, m)
    case Controls(j, c) => ControllerEnabled(s, j, c)
    case Changes(w) => WorldEnabled(s, w)
  }

  function Apply(s: State, e: Event): (t: State)
    requires Enabled(s, e)
  {
    match e
    case Schedules(k, m) => SchedulerApply(s, k, m)
    case Controls(j, c) => ControllerApply(s, j, c)
    case Changes(w) => WorldApply(s, w)
  }

  ghost predicate Run(s: State, events: seq<Event>)
    decreases |events|
  {
    if events == [] then true else Enabled(s, events[0]) && Run(Apply(s, events[0]), events[1..])
  }

  ghost function After(s: State, events: seq<Event>): (t: State)
    requires Run(s, events)
    decreases |events|
  {
    if events == [] then s else After(Apply(s, events[0]), events[1..])
  }

  // ---------------------------------------------------------------------------
  // What every step keeps

  ghost predicate Once(activated: seq<Activation>)
  {
    forall i, j :: 0 <= i < j < |activated| ==> activated[i].uid != activated[j].uid
  }

  ghost predicate Known(activated: seq<Activation>, a: Option<Activation>)
  {
    a.Some? ==> a.value in activated
  }

  /** An activation is still in the slot, or its request is gone, or its request carries it. */
  ghost predicate Settled(slot: Option<Activation>, requests: map<Uid, Request>, a: Activation)
  {
    slot == Some(a) || a.uid !in requests || requests[a.uid].admission == Some(a)
  }

  ghost predicate RequestOk(activated: seq<Activation>, uid: Uid, r: Request)
  {
    r.admission.Some? ==> r.admission.value.uid == uid && r.admission.value in activated
  }

  ghost predicate RequestsOk(activated: seq<Activation>, requests: map<Uid, Request>, used: set<Uid>)
  {
    forall uid: Uid :: uid in requests ==> uid in used && RequestOk(activated, uid, requests[uid])
  }

  /** A read request is older than, or is, the one stored; an admission it shows is still there. */
  ghost predicate SeenOk(requests: map<Uid, Request>, used: set<Uid>, uid: Uid, seen: Request)
  {
    && uid in used
    && (uid in requests ==>
          && seen.version <= requests[uid].version && seen.created == requests[uid].created
          && (seen.version == requests[uid].version ==> seen == requests[uid])
          && (seen.admission.Some? ==> requests[uid].admission == seen.admission))
  }

  ghost predicate SchedulerOk(s: State, p: Scheduler)
  {
    && p.version <= s.version
    && match p
       case HasSlot(version, slot) => Known(s.activated, slot) && (version == s.version ==> slot == s.slot)
       case SawRequest(version, active, seen) => HoldsActive(s, version, active, seen)
       case Releasing(version, active, seen, at) => HoldsActive(s, version, active, seen) && Decided(active, seen, at)
       case Picked(version, uid, listed) => HoldsCandidate(s, version, uid, listed)
       case Admitting(version, listed, active) =>
         HoldsCandidate(s, version, active.uid, listed) && listed.admission.None?
  }

  ghost predicate HoldsActive(s: State, version: nat, active: Activation, seen: Option<Request>)
  {
    && (version == s.version ==> s.slot == Some(active))
    && (seen.Some? ==> SeenOk(s.requests, s.used, active.uid, seen.value))
    && (seen.None? ==> active.uid in s.used && active.uid !in s.requests)
  }

  ghost predicate HoldsCandidate(s: State, version: nat, uid: Uid, listed: Request)
  {
    && SeenOk(s.requests, s.used, uid, listed)
    && (version == s.version ==>
          s.slot.None? && (listed.admission.None? ==> forall a :: a in s.activated ==> a.uid != uid))
  }

  ghost predicate ControllerOk(s: State, c: Controller)
  {
    && SeenOk(s.requests, s.used, c.uid, c.seen) && RequestOk(s.activated, c.uid, c.seen)
    && (c.HasBoth? || c.Wrote? ==> c.active.Some? ==> c.active.value.uid == c.uid && c.active.value in s.activated)
  }

  /** A request that still existed had acknowledged the activation, and after expiry had come to its end. */
  predicate Decided(active: Activation, seen: Option<Request>, at: int)
  {
    seen.Some? ==>
      && seen.value.admission == Some(active)
      && (active.expires <= at ==> seen.value.phase == Completed || seen.value.phase == Expired || seen.value.phase == Cancelled)
  }

  ghost predicate WithdrawalOk(w: Withdrawal)
  {
    (w.request.None? || w.request.value.admission == Some(w.active)) && Decided(w.active, w.seen, w.at)
  }

  ghost predicate SlotOk(slot: Option<Activation>, requests: map<Uid, Request>, used: set<Uid>, activated: seq<Activation>)
  {
    && Once(activated) && Known(activated, slot)
    && forall a :: a in activated ==> a.uid in used && Settled(slot, requests, a)
  }

  ghost predicate Inv(s: State)
  {
    && SlotOk(s.slot, s.requests, s.used, s.activated)
    && RequestsOk(s.activated, s.requests, s.used)
    && (forall k :: k in s.schedulers ==> SchedulerOk(s, s.schedulers[k]))
    && (forall j :: j in s.controllers ==> ControllerOk(s, s.controllers[j]))
    && (forall w :: w in s.withdrawn ==> WithdrawalOk(w))
  }

  /** Two activations of one request are the same activation. */
  lemma OnlyOne(activated: seq<Activation>, a: Activation, b: Activation)
    requires Once(activated) && a in activated && b in activated && a.uid == b.uid
    ensures a == b
  {
    var i :| 0 <= i < |activated| && activated[i] == a;
    var j :| 0 <= j < |activated| && activated[j] == b;
    assert i == j;
  }

  /** How a stored request may be replaced: newer, and an admission it had stays. */
  ghost predicate Replaces(activated: seq<Activation>, uid: Uid, before: Request, after: Request)
  {
    && before.version <= after.version && (before.version == after.version ==> before == after)
    && before.created == after.created
    && (before.admission.Some? ==> after.admission == before.admission)
    && RequestOk(activated, uid, after)
  }

  /** Replacing one stored request keeps everything read before valid. */
  lemma ReplaceKeeps(s: State, uid: Uid, r: Request)
    requires Inv(s) && uid in s.requests && Replaces(s.activated, uid, s.requests[uid], r)
    ensures Inv(s.(requests := s.requests[uid := r]))
  {
    var t := s.(requests := s.requests[uid := r]);
    forall k | k in t.schedulers
      ensures SchedulerOk(t, t.schedulers[k])
    {
      assert SchedulerOk(s, s.schedulers[k]);
    }
    forall j | j in t.controllers
      ensures ControllerOk(t, t.controllers[j])
    {
      assert ControllerOk(s, s.controllers[j]);
    }
  }

  lemma WriteIsReplacement(s: State, j: nat)
    requires Inv(s) && ControllerEnabled(s, j, WriteStatus)
    ensures var h := s.controllers[j];
      Replaces(s.activated, h.uid, s.requests[h.uid], WithStatus(h.seen, NextStatus(h.seen, h.active, s.now)))
  {
    var h := s.controllers[j];
    assert ControllerOk(s, h);
    if h.active.Some? && h.seen.admission.Some? {
      OnlyOne(s.activated, h.active.value, h.seen.admission.value);
    }
  }

  /** Changing one process leaves the rest as it was. */
  lemma ControllerMoves(s: State, j: nat, c: Controller, disowned: set<Uid>)
    requires Inv(s) && ControllerOk(s, c)
    ensures Inv(s.(controllers := s.controllers[j := c], disowned := disowned))
  {
    var t := s.(controllers := s.controllers[j := c], disowned := disowned);
    forall i | i in t.controllers
      ensures ControllerOk(t, t.controllers[i])
    {
      assert i != j ==> ControllerOk(s, s.controllers[i]);
      assert ControllerOk(s, t.controllers[i]);
    }
    forall k | k in t.schedulers
      ensures SchedulerOk(t, t.schedulers[k])
    {
      assert SchedulerOk(s, s.schedulers[k]);
    }
  }

  lemma ControllerLeaves(s: State, j: nat)
    requires Inv(s)
    ensures Inv(s.(controllers := s.controllers - {j}))
  {
    var t := s.(controllers := s.controllers - {j});
    forall i | i in t.controllers
      ensures ControllerOk(t, t.controllers[i])
    {
      assert ControllerOk(s, s.controllers[i]);
    }
    forall k | k in t.schedulers
      ensures SchedulerOk(t, t.schedulers[k])
    {
      assert SchedulerOk(s, s.schedulers[k]);
    }
  }

  lemma ControllerKeeps(s: State, j: nat, c: ControllerMove)
    requires Inv(s) && ControllerEnabled(s, j, c)
    ensures Inv(ControllerApply(s, j, c))
  {
    match c {
      case Fetch(uid) => ControllerMoves(s, j, HasRequest(uid, s.requests[uid]), s.disowned);
      case FetchSlot(rootCurrent) =>
        var h := s.controllers[j];
        assert ControllerOk(s, h);
        var active := if rootCurrent && s.slot.Some? && s.slot.value.uid == h.uid then s.slot else None;
        ControllerMoves(s, j, HasBoth(h.uid, h.seen, active), if rootCurrent then s.disowned else s.disowned + {h.uid});
      case WriteStatus =>
        var h := s.controllers[j];
        assert ControllerOk(s, h);
        WriteIsReplacement(s, j);
        var r := WithStatus(h.seen, NextStatus(h.seen, h.active, s.now));
        ReplaceKeeps(s, h.uid, r);
        ControllerMoves(s.(requests := s.requests[h.uid := r]), j, Wrote(h.uid, r, h.active), s.disowned);
      case PatchFinalizer =>
        var h := s.controllers[j];
        assert ControllerOk(s, h);
        ReplaceKeeps(s, h.uid, WithFinalizer(h.seen, h.active));
        ControllerLeaves(s.(requests := s.requests[h.uid := WithFinalizer(h.seen, h.active)]), j);
      case Quit => ControllerLeaves(s, j);
    }
  }

  lemma SchedulerMoves(s: State, k: nat, p: Scheduler)
    requires Inv(s) && SchedulerOk(s, p)
    ensures Inv(s.(schedulers := s.schedulers[k := p]))
  {
    var t := s.(schedulers := s.schedulers[k := p]);
    forall i | i in t.schedulers
      ensures SchedulerOk(t, t.schedulers[i])
    {
      assert i != k ==> SchedulerOk(s, s.schedulers[i]);
      assert SchedulerOk(s, t.schedulers[i]);
    }
    forall j | j in t.controllers
      ensures ControllerOk(t, t.controllers[j])
    {
      assert ControllerOk(s, s.controllers[j]);
    }
  }

  /** A new slot version makes every other scheduler's pending write fail. */
  lemma SlotMoves(s: State, slot: Option<Activation>, activated: seq<Activation>, k: nat)
    requires Inv(s) && s.activated <= activated && SlotOk(slot, s.requests, s.used, activated)
    ensures var t := s.(version := s.version + 1, slot := slot, schedulers := s.schedulers - {k}, activated := activated);
      Inv(t)
  {
    var t := s.(version := s.version + 1, slot := slot, schedulers := s.schedulers - {k}, activated := activated);
    forall i | i in t.schedulers
      ensures SchedulerOk(t, t.schedulers[i])
    {
      assert SchedulerOk(s, s.schedulers[i]);
    }
    forall j | j in t.controllers
      ensures ControllerOk(t, t.controllers[j])
    {
      assert ControllerOk(s, s.controllers[j]);
    }
  }

  /** The request read before withdrawing still carries the activation, or is still gone. */
  lemma WithdrawKeeps(s: State, k: nat)
    requires Inv(s) && SchedulerEnabled(s, k, Withdraw)
    ensures Inv(SchedulerApply(s, k, Withdraw))
  {
    var p := s.schedulers[k];
    assert SchedulerOk(s, p);
    var a := p.active;
    assert a.uid !in s.requests || s.requests[a.uid].admission == Some(a);
    forall b | b in s.activated
      ensures Settled(None, s.requests, b)
    {
      assert Settled(s.slot, s.requests, b);
    }
    SlotMoves(s, None, s.activated, k);
  }

  /** A picked request without an admission, under an unchanged empty slot, was never activated. */
  lemma ActivateKeeps(s: State, k: nat)
    requires Inv(s) && SchedulerEnabled(s, k, Activate)
    ensures Inv(SchedulerApply(s, k, Activate))
  {
    var p := s.schedulers[k];
    assert SchedulerOk(s, p);
    var a := p.active;
    var activated := s.activated + [a];
    forall b | b in activated
      ensures b.uid in s.used && Settled(Some(a), s.requests, b)
    {
      if b in s.activated {
        assert Settled(s.slot, s.requests, b);
      }
    }
    assert Once(activated) by {
      forall i, j | 0 <= i < j < |activated|
        ensures activated[i].uid != activated[j].uid
      {
        assert activated[i] in s.activated;
      }
    }
    SlotMoves(s, Some(a), activated, k);
  }

  lemma ListKeeps(s: State, k: nat, uid: Uid)
    requires Inv(s) && SchedulerEnabled(s, k, List(uid))
    ensures Inv(SchedulerApply(s, k, List(uid)))
  {
    var p := s.schedulers[k];
    assert SchedulerOk(s, p);
    if p.version == s.version && s.requests[uid].admission.None? {
      forall a | a in s.activated
        ensures a.uid != uid
      {
        assert Settled(s.slot, s.requests, a);
      }
    }
    SchedulerMoves(s, k, Picked(p.version, uid, s.requests[uid]));
  }

  lemma SchedulerKeeps(s: State, k: nat, m: SchedulerMove)
    requires Inv(s) && SchedulerEnabled(s, k, m)
    ensures Inv(SchedulerApply(s, k, m))
  {
    match m {
      case ReadSlot => SchedulerMoves(s, k, HasSlot(s.version, s.slot));
      case ReadRequest =>
        var h := s.schedulers[k];
        assert SchedulerOk(s, h);
        SchedulerMoves(s, k, SawRequest(h.version, h.slot.value, Lookup(s.requests, h.slot.value.uid)));
      case Withdraw => WithdrawKeeps(s, k);
      case List(uid) => ListKeeps(s, k, uid);
      case Activate => ActivateKeeps(s, k);
      case Decide =>
        var p := s.schedulers[k];
        assert SchedulerOk(s, p);
        SchedulerMoves(s, k, Releasing(p.version, p.active, p.seen, s.now));
      case Admit(timing, seconds) =>
        var p := s.schedulers[k];
        assert SchedulerOk(s, p);
        SchedulerMoves(s, k, Admitting(p.version, p.listed, Activation(p.uid, timing, s.now, s.now + seconds)));
      case Stop => SchedulerLeaves(s, k);
    }
  }

  lemma SchedulerLeaves(s: State, k: nat)
    requires Inv(s)
    ensures Inv(s.(schedulers := s.schedulers - {k}))
  {
    var t := s.(schedulers := s.schedulers - {k});
    forall i | i in t.schedulers
      ensures SchedulerOk(t, t.schedulers[i])
    {
      assert SchedulerOk(s, s.schedulers[i]);
    }
    forall j | j in t.controllers
      ensures ControllerOk(t, t.controllers[j])
    {
      assert ControllerOk(s, s.controllers[j]);
    }
  }

  // ---------------------------------------------------------------------------
  // The rest of the cluster

  lemma CreateKeeps(s: State, uid: Uid)
    requires Inv(s) && uid !in s.used
    ensures Inv(WorldApply(s, Create(uid)))
  {
    var t := WorldApply(s, Create(uid));
    forall k | k in t.schedulers
      ensures SchedulerOk(t, t.schedulers[k])
    {
      assert SchedulerOk(s, s.schedulers[k]);
    }
    forall j | j in t.controllers
      ensures ControllerOk(t, t.controllers[j])
    {
      assert ControllerOk(s, s.controllers[j]);
    }
  }

  lemma CollectKeeps(s: State, uid: Uid)
    requires Inv(s) && WorldEnabled(s, Collect(uid))
    ensures Inv(WorldApply(s, Collect(uid)))
  {
    var t := WorldApply(s, Collect(uid));
    forall k | k in t.schedulers
      ensures SchedulerOk(t, t.schedulers[k])
    {
      assert SchedulerOk(s, s.schedulers[k]);
    }
    forall j | j in t.controllers
      ensures ControllerOk(t, t.controllers[j])
    {
      assert ControllerOk(s, s.controllers[j]);
    }
  }

  lemma TickKeeps(s: State, seconds: nat)
    requires Inv(s)
    ensures Inv(WorldApply(s, Tick(seconds)))
  {
    var t := s.(now := s.now + seconds);
    forall k | k in t.schedulers
      ensures SchedulerOk(t, t.schedulers[k])
    {
      assert SchedulerOk(s, s.schedulers[k]);
    }
    forall j | j in t.controllers
      ensures ControllerOk(t, t.controllers[j])
    {
      assert ControllerOk(s, s.controllers[j]);
    }
  }

  lemma DeleteKeeps(s: State, uid: Uid)
    requires Inv(s) && uid in s.requests
    ensures Inv(WorldApply(s, Delete(uid)))
  {
    var r := s.requests[uid].(version := s.requests[uid].version + 1, deleting := true);
    assert RequestOk(s.activated, uid, s.requests[uid]);
    assert Replaces(s.activated, uid, s.requests[uid], r);
    ReplaceKeeps(s, uid, r);
    assert WorldApply(s, Delete(uid)) == s.(requests := s.requests[uid := r]);
  }

  lemma TouchKeeps(s: State, uid: Uid)
    requires Inv(s) && uid in s.requests
    ensures Inv(WorldApply(s, Touch(uid)))
  {
    var r := s.requests[uid].(version := s.requests[uid].version + 1);
    assert RequestOk(s.activated, uid, s.requests[uid]);
    assert Replaces(s.activated, uid, s.requests[uid], r);
    ReplaceKeeps(s, uid, r);
    assert WorldApply(s, Touch(uid)) == s.(requests := s.requests[uid := r]);
  }

  lemma WorldKeeps(s: State, w: World)
    requires Inv(s) && WorldEnabled(s, w)
    ensures Inv(WorldApply(s, w))
  {
    match w {
      case Create(uid) => CreateKeeps(s, uid);
      case Delete(uid) => DeleteKeeps(s, uid);
      case Collect(uid) => CollectKeeps(s, uid);
      case Touch(uid) => TouchKeeps(s, uid);
      case Tick(seconds) => TickKeeps(s, seconds);
    }
  }

  lemma StepKeeps(s: State, e: Event)
    requires Inv(s) && Enabled(s, e)
    ensures Inv(Apply(s, e))
  {
    match e {
      case Schedules(k, m) => SchedulerKeeps(s, k, m);
      case Controls(j, c) => ControllerKeeps(s, j, c);
      case Changes(w) => WorldKeeps(s, w);
    }
  }

  lemma {:induction false} RunKeeps(s: State, events: seq<Event>)
    requires Inv(s) && Run(s, events)
    ensures Inv(After(s, events))
    decreases |events|
  {
    if events != [] {
      StepKeeps(s, events[0]);
      RunKeeps(Apply(s, events[0]), events[1..]);
    }
  }

  // ---------------------------------------------------------------------------
  // Results

  /** Over every run each request is activated at most once. */
  lemma ActivatedAtMostOnce(s: State, events: seq<Event>, i: nat, j: nat)
    requires Boot(s) && Run(s, events) && i < j < |After(s, events).activated|
    ensures After(s, events).activated[i].uid != After(s, events).activated[j].uid
  {
    RunKeeps(s, events);
  }

  /**
   * Over every run a request that still exists is withdrawn only while its status holds that exact activation, and
   * an activation that had run out only after its request was read as closed.
   */
  lemma WithdrawnOnlyWhenAcknowledged(s: State, events: seq<Event>, i: nat)
    requires Boot(s) && Run(s, events) && i < |After(s, events).withdrawn|
    ensures var w := After(s, events).withdrawn[i];
      && (w.request.None? || w.request.value.admission == Some(w.active))
      && (w.seen.Some? && w.active.expires <= w.at ==> w.seen.value.phase in {Completed, Expired, Cancelled})
  {
    RunKeeps(s, events);
    assert After(s, events).withdrawn[i] in After(s, events).withdrawn;
  }

  /** A status's admission is the one activation of that request, and no step ever takes it away. */
  lemma AdmissionsStay(s: State, events: seq<Event>, e: Event, uid: Uid)
    requires Boot(s) && Run(s, events) && Enabled(After(s, events), e)
    requires var t := After(s, events); uid in t.requests && t.requests[uid].admission.Some?
    ensures var t := After(s, events);
      && t.requests[uid].admission.value in t.activated && t.requests[uid].admission.value.uid == uid
      && (uid in Apply(t, e).requests ==> Apply(t, e).requests[uid].admission == t.requests[uid].admission)
  {
    RunKeeps(s, events);
    StepKeepsAdmission(After(s, events), e, uid);
  }

  lemma StepKeepsAdmission(t: State, e: Event, uid: Uid)
    requires Inv(t) && Enabled(t, e) && uid in t.requests && t.requests[uid].admission.Some?
    ensures t.requests[uid].admission.value in t.activated && t.requests[uid].admission.value.uid == uid
    ensures uid in Apply(t, e).requests ==> Apply(t, e).requests[uid].admission == t.requests[uid].admission
  {
    assert RequestOk(t.activated, uid, t.requests[uid]);
    if e.Controls? && e.c.WriteStatus? {
      WriteIsReplacement(t, e.j);
    } else if e.Controls? && e.c.PatchFinalizer? {
      assert ControllerOk(t, t.controllers[e.j]);
    }
  }

  /** An activation leaves the slot only by such a withdrawal: it is held, acknowledged, or its request is gone. */
  lemma ActivationsAreNeverLost(s: State, events: seq<Event>, a: Activation)
    requires Boot(s) && Run(s, events) && a in After(s, events).activated
    ensures var t := After(s, events);
      t.slot == Some(a) || a.uid !in t.requests || t.requests[a.uid].admission == Some(a)
  {
    RunKeeps(s, events);
    assert Settled(After(s, events).slot, After(s, events).requests, a);
  }
}
