/** What a timing override's phase says is true: of its activation, of the clock and of its deletion. */
module OverridePhases {
  import opened Common
  import opened Overrides

  // ---------------------------------------------------------------------------
  // What phases claim

  ghost predicate Withdrew(withdrawn: seq<Withdrawal>, a: Activation)
  {
    exists i :: 0 <= i < |withdrawn| && withdrawn[i].active == a
  }

  ghost predicate PhaseTrue(now: int, withdrawn: seq<Withdrawal>, disowned: set<Uid>, uid: Uid, r: Request)
  {
    match r.phase
    case NoPhase => r.admission.None?
    case Pending => r.admission.None?
    case Active => r.admission.Some?
    case Completed => r.admission.Some? && r.admission.value.expires <= now
    case Expired => r.admission.None? && r.created + 300 <= now
    case Cancelled => r.deleting || (r.admission.Some? && (Withdrew(withdrawn, r.admission.value) || uid in disowned))
  }

  /** An activation was decided within five minutes of its request and lasts an hour at most. */
  ghost predicate InTime(now: int, requests: map<Uid, Request>, a: Activation)
  {
    && a.started <= now && a.started < a.expires <= a.started + 3600
    && (a.uid in requests ==> requests[a.uid].created <= a.started < requests[a.uid].created + 300)
  }

  /** A controller that found no activation for an admitted request is right, or found no current network. */
  ghost predicate ReadingTrue(withdrawn: seq<Withdrawal>, disowned: set<Uid>, c: Controller)
  {
    c.HasBoth? && c.active.None? && c.seen.admission.Some? ==>
      Withdrew(withdrawn, c.seen.admission.value) || c.uid in disowned
  }

  ghost predicate Phased(s: State)
  {
    && (forall uid :: uid in s.requests ==>
          s.requests[uid].created <= s.now && PhaseTrue(s.now, s.withdrawn, s.disowned, uid, s.requests[uid]))
    && (forall j :: j in s.controllers ==>
          && PhaseTrue(s.now, s.withdrawn, s.disowned, s.controllers[j].uid, s.controllers[j].seen)
          && ReadingTrue(s.withdrawn, s.disowned, s.controllers[j]))
    && (forall a :: a in s.activated ==> (s.slot == Some(a) || Withdrew(s.withdrawn, a)) && InTime(s.now, s.requests, a))
    && (forall k :: k in s.schedulers && s.schedulers[k].Admitting? ==> InTime(s.now, s.requests, s.schedulers[k].active))
  }

  lemma PhaseStaysTrue(now: int, withdrawn: seq<Withdrawal>, disowned: set<Uid>, now': int, withdrawn': seq<Withdrawal>,
                       disowned': set<Uid>, uid: Uid, r: Request)
    requires PhaseTrue(now, withdrawn, disowned, uid, r) && now <= now' && withdrawn <= withdrawn' && disowned <= disowned'
    ensures PhaseTrue(now', withdrawn', disowned', uid, r)
  {
    if r.admission.Some? && Withdrew(withdrawn, r.admission.value) {
      WithdrewStays(withdrawn, withdrawn', r.admission.value);
    }
  }

  lemma WithdrewStays(withdrawn: seq<Withdrawal>, withdrawn': seq<Withdrawal>, a: Activation)
    requires Withdrew(withdrawn, a) && withdrawn <= withdrawn'
    ensures Withdrew(withdrawn', a)
  {
    var i :| 0 <= i < |withdrawn| && withdrawn[i].active == a;
    assert withdrawn'[i].active == a;
  }

  /** What a status write makes of a request read truly. */
  lemma WrittenIsTrue(now: int, withdrawn: seq<Withdrawal>, disowned: set<Uid>, h: Controller)
    requires h.HasBoth? && PhaseTrue(now, withdrawn, disowned, h.uid, h.seen) && ReadingTrue(withdrawn, disowned, h)
    ensures PhaseTrue(now, withdrawn, disowned, h.uid, WithStatus(h.seen, NextStatus(h.seen, h.active, now)))
  {
  }

  // ---------------------------------------------------------------------------
  // Every step keeps them true

  lemma FetchSlotKeeps(s: State, j: nat, rootCurrent: bool)
    requires Inv(s) && Phased(s) && ControllerEnabled(s, j, FetchSlot(rootCurrent))
    ensures Phased(ControllerApply(s, j, FetchSlot(rootCurrent)))
  {
    var t, h := ControllerApply(s, j, FetchSlot(rootCurrent)), s.controllers[j];
    assert ControllerOk(s, h);
    forall uid | uid in t.requests
      ensures PhaseTrue(t.now, t.withdrawn, t.disowned, uid, t.requests[uid])
    {
      PhaseStaysTrue(s.now, s.withdrawn, s.disowned, t.now, t.withdrawn, t.disowned, uid, s.requests[uid]);
    }
    forall i | i in t.controllers
      ensures PhaseTrue(t.now, t.withdrawn, t.disowned, t.controllers[i].uid, t.controllers[i].seen)
      ensures ReadingTrue(t.withdrawn, t.disowned, t.controllers[i])
    {
      PhaseStaysTrue(s.now, s.withdrawn, s.disowned, t.now, t.withdrawn, t.disowned, s.controllers[i].uid, s.controllers[i].seen);
      assert ReadingTrue(s.withdrawn, s.disowned, s.controllers[i]);
    }
  }

  lemma WriteKeeps(s: State, j: nat)
    requires Inv(s) && Phased(s) && ControllerEnabled(s, j, WriteStatus)
    ensures Phased(ControllerApply(s, j, WriteStatus))
  {
    var h := s.controllers[j];
    assert ControllerOk(s, h);
    WrittenIsTrue(s.now, s.withdrawn, s.disowned, h);
  }

  lemma ControllerKeepsPhases(s: State, j: nat, c: ControllerMove)
    requires Inv(s) && Phased(s) && ControllerEnabled(s, j, c)
    ensures Phased(ControllerApply(s, j, c))
  {
    match c {
      case FetchSlot(rootCurrent) => FetchSlotKeeps(s, j, rootCurrent);
      case WriteStatus => WriteKeeps(s, j);
      case PatchFinalizer => PatchKeeps(s, j);
      case Fetch(uid) => FetchKeeps(s, j, uid);
      case Quit =>
    }
  }

  lemma FetchKeeps(s: State, j: nat, uid: Uid)
    requires Phased(s) && ControllerEnabled(s, j, Fetch(uid))
    ensures Phased(ControllerApply(s, j, Fetch(uid)))
  {
  }

  lemma PatchKeeps(s: State, j: nat)
    requires Inv(s) && Phased(s) && ControllerEnabled(s, j, PatchFinalizer)
    ensures Phased(ControllerApply(s, j, PatchFinalizer))
  {
    var h := s.controllers[j];
    assert ControllerOk(s, h);
    RequestReplaced(s, h.uid, WithFinalizer(h.seen, h.active));
  }

  /** A request whose phase, admission and creation stay, and which is not undeleted, still says the truth. */
  lemma RequestReplaced(s: State, uid: Uid, r: Request)
    requires Phased(s) && uid in s.requests
    requires var q := s.requests[uid];
      r.phase == q.phase && r.admission == q.admission && r.created == q.created && (q.deleting ==> r.deleting)
    ensures Phased(s.(requests := s.requests[uid := r]))
  {
    assert PhaseTrue(s.now, s.withdrawn, s.disowned, uid, s.requests[uid]);
  }

  lemma WithdrawKeepsPhases(s: State, k: nat)
    requires Inv(s) && Phased(s) && SchedulerEnabled(s, k, Withdraw)
    ensures Phased(SchedulerApply(s, k, Withdraw))
  {
    var t := SchedulerApply(s, k, Withdraw);
    assert SchedulerOk(s, s.schedulers[k]);
    var last := |s.withdrawn|;
    assert t.withdrawn[last].active == s.schedulers[k].active;
    forall uid | uid in t.requests
      ensures PhaseTrue(t.now, t.withdrawn, t.disowned, uid, t.requests[uid])
    {
      PhaseStaysTrue(s.now, s.withdrawn, s.disowned, t.now, t.withdrawn, t.disowned, uid, s.requests[uid]);
    }
    ReadingsStayTrue(s, t);
    forall a | a in t.activated
      ensures t.slot == Some(a) || Withdrew(t.withdrawn, a)
    {
      if s.slot != Some(a) {
        WithdrewStays(s.withdrawn, t.withdrawn, a);
      }
    }
  }

  lemma ReadingsStayTrue(s: State, t: State)
    requires Phased(s) && t.controllers == s.controllers && s.now <= t.now && s.withdrawn <= t.withdrawn && s.disowned == t.disowned
    ensures forall j :: j in t.controllers ==>
      && PhaseTrue(t.now, t.withdrawn, t.disowned, t.controllers[j].uid, t.controllers[j].seen)
      && ReadingTrue(t.withdrawn, t.disowned, t.controllers[j])
  {
    forall j | j in t.controllers
      ensures PhaseTrue(t.now, t.withdrawn, t.disowned, t.controllers[j].uid, t.controllers[j].seen)
      ensures ReadingTrue(t.withdrawn, t.disowned, t.controllers[j])
    {
      var c := s.controllers[j];
      PhaseStaysTrue(s.now, s.withdrawn, s.disowned, t.now, t.withdrawn, t.disowned, c.uid, c.seen);
      assert ReadingTrue(s.withdrawn, s.disowned, c);
      if c.HasBoth? && c.seen.admission.Some? && Withdrew(s.withdrawn, c.seen.admission.value) {
        WithdrewStays(s.withdrawn, t.withdrawn, c.seen.admission.value);
      }
    }
  }

  lemma AdmitKeeps(s: State, k: nat, timing: nat, seconds: int)
    requires Inv(s) && Phased(s) && SchedulerEnabled(s, k, Admit(timing, seconds))
    ensures Phased(SchedulerApply(s, k, Admit(timing, seconds)))
  {
    assert SchedulerOk(s, s.schedulers[k]);
  }

  lemma SchedulerKeepsPhases(s: State, k: nat, m: SchedulerMove)
    requires Inv(s) && Phased(s) && SchedulerEnabled(s, k, m)
    ensures Phased(SchedulerApply(s, k, m))
  {
    match m {
      case Withdraw => WithdrawKeepsPhases(s, k);
      case Admit(timing, seconds) => AdmitKeeps(s, k, timing, seconds);
      case Activate => assert SchedulerOk(s, s.schedulers[k]);
      case _ =>
    }
  }

  lemma TickKeepsPhases(s: State, seconds: nat)
    requires Phased(s)
    ensures Phased(WorldApply(s, Tick(seconds)))
  {
    var t := WorldApply(s, Tick(seconds));
    forall uid | uid in t.requests
      ensures PhaseTrue(t.now, t.withdrawn, t.disowned, uid, t.requests[uid])
    {
      PhaseStaysTrue(s.now, s.withdrawn, s.disowned, t.now, t.withdrawn, t.disowned, uid, s.requests[uid]);
    }
    ReadingsStayTrue(s, t);
  }

  /** A new request was never activated, so no activation has to fit it. */
  lemma CreateKeepsPhases(s: State, uid: Uid)
    requires Inv(s) && Phased(s) && uid !in s.used
    ensures Phased(WorldApply(s, Create(uid)))
  {
    forall k | k in s.schedulers && s.schedulers[k].Admitting?
      ensures s.schedulers[k].active.uid != uid
    {
      assert SchedulerOk(s, s.schedulers[k]);
    }
    forall a | a in s.activated
      ensures a.uid != uid
    {
      assert a.uid in s.used;
    }
  }

  lemma CollectKeepsPhases(s: State, uid: Uid)
    requires Phased(s) && WorldEnabled(s, Collect(uid))
    ensures Phased(WorldApply(s, Collect(uid)))
  {
  }

  lemma DeleteKeepsPhases(s: State, uid: Uid)
    requires Phased(s) && uid in s.requests
    ensures Phased(WorldApply(s, Delete(uid)))
  {
    var r := s.requests[uid].(version := s.requests[uid].version + 1, deleting := true);
    RequestReplaced(s, uid, r);
    assert WorldApply(s, Delete(uid)) == s.(requests := s.requests[uid := r]);
  }

  lemma TouchKeepsPhases(s: State, uid: Uid)
    requires Phased(s) && uid in s.requests
    ensures Phased(WorldApply(s, Touch(uid)))
  {
    var r := s.requests[uid].(version := s.requests[uid].version + 1);
    RequestReplaced(s, uid, r);
    assert WorldApply(s, Touch(uid)) == s.(requests := s.requests[uid := r]);
  }

  lemma WorldKeepsPhases(s: State, w: World)
    requires Inv(s) && Phased(s) && WorldEnabled(s, w)
    ensures Phased(WorldApply(s, w))
  {
    match w {
      case Create(uid) => CreateKeepsPhases(s, uid);
      case Tick(seconds) => TickKeepsPhases(s, seconds);
      case Delete(uid) => DeleteKeepsPhases(s, uid);
      case Touch(uid) => TouchKeepsPhases(s, uid);
      case Collect(uid) => CollectKeepsPhases(s, uid);
    }
  }

  lemma StepKeepsPhases(s: State, e: Event)
    requires Inv(s) && Phased(s) && Enabled(s, e)
    ensures Phased(Apply(s, e))
  {
    match e {
      case Schedules(k, m) => SchedulerKeepsPhases(s, k, m);
      case Controls(j, c) => ControllerKeepsPhases(s, j, c);
      case Changes(w) => WorldKeepsPhases(s, w);
    }
  }

  lemma {:induction false} RunKeepsPhases(s: State, events: seq<Event>)
    requires Inv(s) && Phased(s) && Run(s, events)
    ensures Inv(After(s, events)) && Phased(After(s, events))
    decreases |events|
  {
    if events != [] {
      StepKeeps(s, events[0]);
      StepKeepsPhases(s, events[0]);
      RunKeepsPhases(Apply(s, events[0]), events[1..]);
    }
  }

  // ---------------------------------------------------------------------------
  // Results

  /**
   * In every reachable state: Active and Completed requests were activated, and Completed ones have run out; a
   * Pending or Expired one was not, and an Expired one is five minutes old; a Cancelled one is being deleted, or its
   * activation was withdrawn, or its controller found no current network.
   */
  lemma PhasesAreTrue(s: State, events: seq<Event>, uid: Uid)
    requires Boot(s) && Run(s, events) && uid in After(s, events).requests
    ensures var t := After(s, events); var r := t.requests[uid];
      && (r.phase == Active ==> r.admission.Some?)
      && (r.phase == Completed ==> r.admission.Some? && r.admission.value.expires <= t.now)
      && (r.phase == Pending ==> r.admission.None?)
      && (r.phase == Expired ==> r.admission.None? && r.created + 300 <= t.now)
      && (r.phase == Cancelled ==>
            || r.deleting
            || (r.admission.Some? && exists i :: 0 <= i < |t.withdrawn| && t.withdrawn[i].active == r.admission.value)
            || (r.admission.Some? && uid in t.disowned))
  {
    RunKeepsPhases(s, events);
    assert PhaseTrue(After(s, events).now, After(s, events).withdrawn, After(s, events).disowned, uid, After(s, events).requests[uid]);
  }

  /** Every activation was decided within five minutes of its request's creation and lasts between a moment and an hour. */
  lemma ActivationsAreInTime(s: State, events: seq<Event>, a: Activation)
    requires Boot(s) && Run(s, events) && a in After(s, events).activated
    ensures var t := After(s, events);
      && a.started <= t.now && a.started < a.expires <= a.started + 3600
      && (a.uid in t.requests ==> t.requests[a.uid].created <= a.started < t.requests[a.uid].created + 300)
  {
    RunKeepsPhases(s, events);
  }

  /** What a status write makes of the request it read, by what it found in the slot. */
  lemma WrittenPhases(s: State, j: nat)
    requires Inv(s) && ControllerEnabled(s, j, WriteStatus)
    ensures var h := s.controllers[j]; var r := ControllerApply(s, j, WriteStatus).requests[h.uid]; var before := s.requests[h.uid];
      && r.deleting == before.deleting && r.created == before.created && r.finalizer == before.finalizer
      && match h.active
         case Some(a) =>
           && r.admission == Some(a)
           && (r.phase == Active <==> !before.deleting && s.now < a.expires)
           && (r.phase == Completed <==> !before.deleting && a.expires <= s.now)
           && (r.phase == Cancelled <==> before.deleting)
         case None =>
           && r.admission == before.admission
           && if before.phase in {Completed, Expired, Cancelled} then r.phase == before.phase
              else
                && (r.phase == Cancelled <==> before.admission.Some? || before.deleting)
                && (r.phase == Expired <==> before.admission.None? && !before.deleting && before.created + 300 <= s.now)
                && (r.phase == Pending <==> before.admission.None? && !before.deleting && s.now < before.created + 300)
  {
    var h := s.controllers[j];
    assert ControllerOk(s, h);
  }

  /**
   * While the slot holds a request's activation, a controller that reads it there and writes at once writes Active
   * exactly when the request is not being deleted and the activation has not run out.
   */
  lemma HeldMeansActive(s: State, j: nat, a: Activation)
    requires Inv(s) && s.slot == Some(a) && ControllerEnabled(s, j, FetchSlot(true)) && s.controllers[j].uid == a.uid
    requires Current(s, s.controllers[j])
    ensures var m := ControllerApply(s, j, FetchSlot(true));
      && ControllerEnabled(m, j, WriteStatus)
      && var r := ControllerApply(m, j, WriteStatus).requests[a.uid];
         && r.admission == Some(a)
         && (r.phase == Active <==> !s.requests[a.uid].deleting && s.now < a.expires)
         && (r.phase == Completed <==> !s.requests[a.uid].deleting && a.expires <= s.now)
         && (r.phase == Cancelled <==> s.requests[a.uid].deleting)
  {
    var m := ControllerApply(s, j, FetchSlot(true));
    ControllerKeeps(s, j, FetchSlot(true));
    WrittenPhases(m, j);
  }

  /** Only a request read as undeleted, unfinished, never admitted, guarded by its finalizer and in time is admitted. */
  lemma AdmissionsAreEligible(s: State, k: nat, timing: nat, seconds: int)
    requires Inv(s) && SchedulerEnabled(s, k, Admit(timing, seconds))
    ensures var p := s.schedulers[k]; var t := SchedulerApply(s, k, Admit(timing, seconds));
      && !p.listed.deleting && p.listed.admission.None? && p.listed.finalizer
      && p.listed.phase !in {Completed, Expired, Cancelled} && s.now < p.listed.created + 300
      && (p.version == s.version ==> s.slot.None? && forall a :: a in s.activated ==> a.uid != p.uid)
      && t.schedulers[k] == Admitting(p.version, p.listed, Activation(p.uid, timing, s.now, s.now + seconds))
  {
    assert SchedulerOk(s, s.schedulers[k]);
  }

  /** A finalizer is dropped exactly from a closed request without activation, and added to an open one not being deleted. */
  lemma FinalizersFollow(s: State, j: nat)
    requires Inv(s) && ControllerEnabled(s, j, PatchFinalizer)
    ensures var h := s.controllers[j]; var before := s.requests[h.uid];
      var r := ControllerApply(s, j, PatchFinalizer).requests[h.uid];
      var closing := h.active.None? && before.phase in {Completed, Expired, Cancelled};
      && r.phase == before.phase && r.admission == before.admission && r.deleting == before.deleting
      && r.finalizer == (if closing then false else before.finalizer || !before.deleting)
  {
    assert ControllerOk(s, s.controllers[j]);
  }
}
