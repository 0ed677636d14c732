/**
 * Runs of the override protocol: every override of up to an hour can be activated, run its course and be withdrawn;
 * and the one way a request is cancelled while its activation still stands.
 */
module OverrideRuns {
  import opened Common
  import opened Overrides

  // ---------------------------------------------------------------------------
  // Reachability

  ghost predicate Reaches(s: State, t: State)
  {
    exists events: seq<Event> :: Run(s, events) && After(s, events) == t
  }

  lemma Stays(s: State)
    ensures Reaches(s, s)
  {
    assert Run(s, []) && After(s, []) == s;
  }

  lemma {:induction false} Joins(s: State, a: seq<Event>, b: seq<Event>)
    requires Run(s, a) && Run(After(s, a), b)
    ensures Run(s, a + b) && After(s, a + b) == After(After(s, a), b)
    decreases |a|
  {
    if a == [] {
      assert a + b == b;
    } else {
      assert (a + b)[0] == a[0] && (a + b)[1..] == a[1..] + b;
      Joins(Apply(s, a[0]), a[1..], b);
    }
  }

  lemma Passes(s: State, t: State, u: State)
    requires Reaches(s, t) && Reaches(t, u)
    ensures Reaches(s, u)
  {
    var a: seq<Event> :| Run(s, a) && After(s, a) == t;
    var b: seq<Event> :| Run(t, b) && After(t, b) == u;
    Joins(s, a, b);
  }

  lemma Takes(s: State, t: State, e: Event)
    requires Reaches(s, t) && Enabled(t, e)
    ensures Reaches(s, Apply(t, e))
  {
    var u := Apply(t, e);
    assert [e][1..] == [];
    assert Run(u, []) && Run(t, [e]) && After(t, [e]) == u;
    Passes(s, t, u);
  }

  // ---------------------------------------------------------------------------
  // One request and nobody at work

  /** Only this request exists, and no scheduler or controller is under way. */
  predicate Alone(s: State, uid: Uid)
  {
    s.requests.Keys == {uid} && s.schedulers == map[] && s.controllers == map[]
  }

  function Found(s: State, uid: Uid, rootCurrent: bool): (a: Option<Activation>)
  {
    if rootCurrent && s.slot.Some? && s.slot.value.uid == uid then s.slot else None
  }

  /** The request after one whole reconcile of its controller. */
  function Reconciled(s: State, uid: Uid, rootCurrent: bool): (r: Request)
    requires uid in s.requests
  {
    var active := Found(s, uid, rootCurrent);
    WithFinalizer(WithStatus(s.requests[uid], NextStatus(s.requests[uid], active, s.now)), active)
  }

  function AfterReconcile(s: State, uid: Uid, rootCurrent: bool): (t: State)
    requires uid in s.requests
  {
    s.(requests := s.requests[uid := Reconciled(s, uid, rootCurrent)],
       disowned := if rootCurrent then s.disowned else s.disowned + {uid})
  }

  lemma ControllerRuns(s: State, uid: Uid, rootCurrent: bool)
    requires Alone(s, uid)
    ensures Reaches(s, AfterReconcile(s, uid, rootCurrent))
  {
    ReadsBoth(s, uid, rootCurrent);
    var r, active := s.requests[uid], Found(s, uid, rootCurrent);
    var d := if rootCurrent then s.disowned else s.disowned + {uid};
    var s2 := s.(controllers := map[0 := HasBoth(uid, r, active)], disowned := d);
    Takes(s, s2, Controls(0, WriteStatus));
    var q := WithStatus(r, NextStatus(r, active, s.now));
    var s3 := s.(requests := s.requests[uid := q], controllers := map[0 := Wrote(uid, q, active)], disowned := d);
    assert Apply(s2, Controls(0, WriteStatus)) == s3;
    Takes(s, s3, Controls(0, PatchFinalizer));
    assert s3.controllers - {0} == map[];
    assert s3.requests[uid := WithFinalizer(q, active)] == s.requests[uid := WithFinalizer(q, active)];
    assert Apply(s3, Controls(0, PatchFinalizer)) == AfterReconcile(s, uid, rootCurrent);
  }

  lemma ReadsBoth(s: State, uid: Uid, rootCurrent: bool)
    requires Alone(s, uid)
    ensures Reaches(s, s.(controllers := map[0 := HasBoth(uid, s.requests[uid], Found(s, uid, rootCurrent))],
                          disowned := if rootCurrent then s.disowned else s.disowned + {uid}))
  {
    Stays(s);
    Takes(s, s, Controls(0, Fetch(uid)));
    var s1 := s.(controllers := map[0 := HasRequest(uid, s.requests[uid])]);
    Takes(s, s1, Controls(0, FetchSlot(rootCurrent)));
    assert Apply(s1, Controls(0, FetchSlot(rootCurrent))) ==
      s.(controllers := map[0 := HasBoth(uid, s.requests[uid], Found(s, uid, rootCurrent))],
         disowned := if rootCurrent then s.disowned else s.disowned + {uid});
  }

  function AfterActivation(s: State, a: Activation): (t: State)
  {
    s.(version := s.version + 1, slot := Some(a), activated := s.activated + [a])
  }

  /** A scheduler that finds the slot empty and the request eligible activates it. */
  lemma ActivationRuns(s: State, uid: Uid, timing: nat, seconds: int)
    requires Alone(s, uid) && s.slot.None? && Eligible(s.requests[uid], s.now) && 0 < seconds <= 3600
    ensures Reaches(s, AfterActivation(s, Activation(uid, timing, s.now, s.now + seconds)))
  {
    var a := Activation(uid, timing, s.now, s.now + seconds);
    Stays(s);
    Takes(s, s, Schedules(0, ReadSlot));
    var s1 := s.(schedulers := map[0 := HasSlot(s.version, None)]);
    Takes(s, s1, Schedules(0, List(uid)));
    var s2 := s.(schedulers := map[0 := Picked(s.version, uid, s.requests[uid])]);
    assert Apply(s1, Schedules(0, List(uid))) == s2;
    Takes(s, s2, Schedules(0, Admit(timing, seconds)));
    var s3 := s.(schedulers := map[0 := Admitting(s.version, s.requests[uid], a)]);
    assert Apply(s2, Schedules(0, Admit(timing, seconds))) == s3;
    Takes(s, s3, Schedules(0, Activate));
    assert s3.schedulers - {0} == map[];
    assert Apply(s3, Schedules(0, Activate)) == AfterActivation(s, a);
  }

  function AfterWithdrawal(s: State, a: Activation, r: Request): (t: State)
  {
    s.(version := s.version + 1, slot := None, withdrawn := s.withdrawn + [Withdrawal(a, Some(r), Some(r), s.now)])
  }

  /** A scheduler that finds the activation acknowledged and over releases the slot. */
  lemma WithdrawalRuns(s: State, uid: Uid, a: Activation)
    requires Alone(s, uid) && s.slot == Some(a) && a.uid == uid && MayWithdraw(a, Some(s.requests[uid]), s.now)
    ensures Reaches(s, AfterWithdrawal(s, a, s.requests[uid]))
  {
    var r := s.requests[uid];
    Stays(s);
    Takes(s, s, Schedules(0, ReadSlot));
    var s1 := s.(schedulers := map[0 := HasSlot(s.version, s.slot)]);
    Takes(s, s1, Schedules(0, ReadRequest));
    var s2 := s.(schedulers := map[0 := SawRequest(s.version, a, Some(r))]);
    assert Apply(s1, Schedules(0, ReadRequest)) == s2;
    Takes(s, s2, Schedules(0, Decide));
    var s3 := s.(schedulers := map[0 := Releasing(s.version, a, Some(r), s.now)]);
    assert Apply(s2, Schedules(0, Decide)) == s3;
    Takes(s, s3, Schedules(0, Withdraw));
    assert s3.schedulers - {0} == map[];
    assert Apply(s3, Schedules(0, Withdraw)) == AfterWithdrawal(s, a, r);
  }

  // ---------------------------------------------------------------------------
  // The course of an override

  /** From nothing to an active override. */
  lemma Starts(s: State, uid: Uid, timing: nat, seconds: int) returns (t: State)
    requires Boot(s) && 0 < seconds <= 3600
    ensures Reaches(s, t) && Alone(t, uid) && t.now == 0 && t.withdrawn == []
    ensures t.slot == Some(Activation(uid, timing, 0, seconds)) && !t.requests[uid].deleting
    ensures t.requests[uid].phase == Active && t.requests[uid].admission == t.slot
  {
    Stays(s);
    Takes(s, s, Changes(Create(uid)));
    var created := Apply(s, Changes(Create(uid)));
    ControllerRuns(created, uid, true);
    var pending := AfterReconcile(created, uid, true);
    Passes(s, created, pending);
    ActivationRuns(pending, uid, timing, seconds);
    var activated := AfterActivation(pending, Activation(uid, timing, 0, seconds));
    Passes(s, pending, activated);
    ControllerRuns(activated, uid, true);
    t := AfterReconcile(activated, uid, true);
    Passes(s, activated, t);
  }

  /**
   * Every override of up to an hour can run its course: it is Active while its activation holds the slot, Completed
   * once the time has run out, and then the slot is free again.
   */
  lemma OverridesRunTheirCourse(s: State, uid: Uid, timing: nat, seconds: int) returns (active: State, over: State)
    requires Boot(s) && 0 < seconds <= 3600
    ensures Reaches(s, active) && Reaches(active, over)
    ensures uid in active.requests && active.slot == Some(Activation(uid, timing, 0, seconds))
    ensures active.requests[uid].phase == Active && active.requests[uid].admission == active.slot
    ensures uid in over.requests && over.slot.None? && over.now == seconds
    ensures over.requests[uid].phase == Completed && over.requests[uid].admission == active.slot
  {
    active := Starts(s, uid, timing, seconds);
    var a := active.slot.value;
    Stays(active);
    Takes(active, active, Changes(Tick(seconds)));
    var late := active.(now := seconds);
    ControllerRuns(late, uid, true);
    var ended := AfterReconcile(late, uid, true);
    Passes(active, late, ended);
    WithdrawalRuns(ended, uid, a);
    over := AfterWithdrawal(ended, a, ended.requests[uid]);
    Passes(active, ended, over);
  }

  /**
   * Cancelled does not always mean deleted or withdrawn: a controller that finds no current network cancels an
   * admitted request whose activation still holds the slot and still runs.
   */
  lemma CancelledWhileStillHeld(s: State, uid: Uid) returns (t: State)
    requires Boot(s)
    ensures Reaches(s, t) && uid in t.requests && t.requests[uid].phase == Cancelled && !t.requests[uid].deleting
    ensures t.withdrawn == [] && t.slot.Some? && t.requests[uid].admission == t.slot && t.now < t.slot.value.expires
    ensures uid in t.disowned
  {
    var active := Starts(s, uid, 0, 60);
    ControllerRuns(active, uid, false);
    t := AfterReconcile(active, uid, false);
    Passes(s, active, t);
  }
}
