/**
 * The protocol can finish what it admits: for every block generation there is a run that reserves the record,
 * acknowledges the admission, sends and accounts every block, concludes Completed and gives the record back.
 */
module AuthorityRuns {
  import opened Common
  import opened Hex
  import opened Reservations
  import opened Lifecycle
  import opened Authority

  // ---------------------------------------------------------------------------
  // Reachability

  ghost predicate Reaches(index: BlockIndex, s: State, t: State)
  {
    exists events: seq<Event> :: Run(index, s, events) && After(index, s, events) == t
  }

  lemma Stays(index: BlockIndex, s: State)
    ensures Reaches(index, s, s)
  {
    assert Run(index, s, []) && After(index, s, []) == s;
  }

  lemma {:induction false} Joins(index: BlockIndex, s: State, a: seq<Event>, b: seq<Event>)
    requires Run(index, s, a) && Run(index, After(index, s, a), b)
    ensures Run(index, s, a + b) && After(index, s, a + b) == After(index, After(index, s, a), b)
    decreases |a|
  {
    if a == [] {
      assert a + b == b;
    } else {
      assert (a + b)[0] == a[0] && (a + b)[1..] == a[1..] + b;
      Joins(index, Apply(index, s, a[0]), a[1..], b);
    }
  }

  lemma Passes(index: BlockIndex, s: State, t: State, u: State)
    requires Reaches(index, s, t) && Reaches(index, t, u)
    ensures Reaches(index, s, u)
  {
    var a: seq<Event> :| Run(index, s, a) && After(index, s, a) == t;
    var b: seq<Event> :| Run(index, t, b) && After(index, t, b) == u;
    Joins(index, s, a, b);
  }

  /** One more event. */
  lemma Takes(index: BlockIndex, s: State, t: State, e: Event)
    requires Reaches(index, s, t) && Enabled(index, t, e)
    ensures Reaches(index, s, Apply(index, t, e))
  {
    var u := Apply(index, t, e);
    assert [e][1..] == [];
    assert Run(index, u, []) && Run(index, t, [e]) && After(index, t, [e]) == u;
    Passes(index, s, t, u);
  }

  // ---------------------------------------------------------------------------
  // One RPC, from rest to rest

  const IDLE := Worker(false, false, Ready, Quiet)

  /** One idle worker, nobody else at work, and an empty slot. */
  predicate Rests(s: State)
  {
    s.workers == map[0 := IDLE] && s.reconciles == map[] && s.record.armed.None?
  }

  /** Every answer favourable. */
  function Willing(now: int, tip: Option<ChainPoint>): (env: Answers)
  {
    Answers(true, true, true, false, now, true, true, tip, true, true, true)
  }

  /** The request as authorization reads it. */
  function Asked(s: State, rpc: Rpc): (view: Option<Request>)
  {
    if rpc.action.Some? then ReadRequest(s, rpc.action.value) else None
  }

  /** An RPC that the state at rest lets its worker arm and send. */
  predicate Sendable(s: State, op: Armed, env: Answers)
  {
    && Rests(s) && Chooses(s.record, op.rpc) && SlotFree(s.record, op.rpc)
    && op.id.process == 0 && op.id !in s.ids
    && Authorizes(s.record, op.rpc, Asked(s, op.rpc), env)
  }

  function At(s: State, pc: Pc, active: bool): (t: State)
  {
    s.(workers := map[0 := Worker(active, false, pc, Quiet)])
  }

  lemma Fetches(index: BlockIndex, s: State)
    requires Rests(s)
    ensures Reaches(index, s, At(s, Read(s.record), false))
  {
    Stays(index, s);
    Takes(index, s, s, Stepping(0, Fetch));
    assert Apply(index, s, Stepping(0, Fetch)) == At(s, Read(s.record), false);
  }

  lemma Claims(index: BlockIndex, s: State, rpc: Rpc)
    requires Rests(s) && Chooses(s.record, rpc)
    ensures Reaches(index, s, At(s, Claimed(rpc), true))
  {
    Fetches(index, s);
    var s1 := At(s, Read(s.record), false);
    Takes(index, s, s1, Arms(0, Claim(rpc)));
    assert Apply(index, s1, Arms(0, Claim(rpc))) == At(s, Claimed(rpc), true);
  }

  lemma Rechecks(index: BlockIndex, s: State, rpc: Rpc)
    requires s.record.armed.None?
    ensures Reaches(index, At(s, Claimed(rpc), true), At(s, Current(rpc, s.record), true))
  {
    var s2 := At(s, Claimed(rpc), true);
    Stays(index, s2);
    Takes(index, s2, s2, Arms(0, Recheck));
    assert Apply(index, s2, Arms(0, Recheck)) == At(s, Current(rpc, s.record), true);
  }

  lemma Permitted(index: BlockIndex, s: State, rpc: Rpc, env: Answers)
    requires Authorizes(s.record, rpc, Asked(s, rpc), env)
    ensures Reaches(index, At(s, Current(rpc, s.record), true), At(s, Authorized(rpc, s.record), true))
  {
    var s3 := At(s, Current(rpc, s.record), true);
    Stays(index, s3);
    Takes(index, s3, s3, Arms(0, Authorize(env)));
    assert Apply(index, s3, Arms(0, Authorize(env))) == At(s, Authorized(rpc, s.record), true);
  }

  function OneArmed(s: State, op: Armed): (t: State)
  {
    s.(record := ArmedRecord(s.record, op), ids := s.ids + {op.id})
  }

  lemma ArmsIt(index: BlockIndex, s: State, op: Armed)
    requires op.id.process == 0 && op.id !in s.ids && SlotFree(s.record, op.rpc)
    ensures var armed := OneArmed(s, op);
      Reaches(index, At(s, Authorized(op.rpc, s.record), true), At(armed, Written(op, armed.record), true))
  {
    var s1 := At(s, Authorized(op.rpc, s.record), true);
    Stays(index, s1);
    Takes(index, s1, s1, Arms(0, Arm(op.id.nonce, Received)));
    var armed := OneArmed(s, op);
    assert Apply(index, s1, Arms(0, Arm(op.id.nonce, Received))) == At(armed, Written(op, armed.record), true);
  }

  /** Arming takes none of an RPC's authority away. */
  lemma StillAuthorized(record: Record, op: Armed, view: Option<Request>, env: Answers)
    requires Authorizes(record, op.rpc, view, env)
    ensures Authorizes(ArmedRecord(record, op), op.rpc, view, env)
  {
  }

  lemma Confirms(index: BlockIndex, s: State, op: Armed, env: Answers)
    requires Authorizes(s.record, op.rpc, Asked(s, op.rpc), env)
    ensures var armed := OneArmed(s, op);
      Reaches(index, At(armed, Written(op, armed.record), true), At(armed, Confirmed(op), true))
  {
    var armed := OneArmed(s, op);
    StillAuthorized(s.record, op, Asked(s, op.rpc), env);
    var s2 := At(armed, Written(op, armed.record), true);
    Stays(index, s2);
    assert Asked(s2, op.rpc) == Asked(s, op.rpc);
    Takes(index, s2, s2, Arms(0, Confirm(env)));
    assert Apply(index, s2, Arms(0, Confirm(env))) == At(armed, Confirmed(op), true);
  }

  function With(s: State, c: Collector): (t: State)
  {
    s.(workers := map[0 := Worker(true, false, Ready, c)])
  }

  lemma Launches(index: BlockIndex, s: State, op: Armed)
    ensures Reaches(index, At(s, Confirmed(op), true), With(s, Launched(op)))
  {
    var s3 := At(s, Confirmed(op), true);
    Stays(index, s3);
    Takes(index, s3, s3, Arms(0, Launch));
    assert Apply(index, s3, Arms(0, Launch)) == With(s, Launched(op));
  }

  lemma ClaimsAndAuthorizes(index: BlockIndex, s: State, op: Armed, env: Answers)
    requires Sendable(s, op, env)
    ensures Reaches(index, s, At(s, Authorized(op.rpc, s.record), true))
  {
    Claims(index, s, op.rpc);
    Rechecks(index, s, op.rpc);
    Passes(index, s, At(s, Claimed(op.rpc), true), At(s, Current(op.rpc, s.record), true));
    Permitted(index, s, op.rpc, env);
    Passes(index, s, At(s, Current(op.rpc, s.record), true), At(s, Authorized(op.rpc, s.record), true));
  }

  lemma ArmsAndLaunches(index: BlockIndex, s: State, op: Armed, env: Answers)
    requires Sendable(s, op, env)
    ensures Reaches(index, s, With(OneArmed(s, op), Launched(op)))
  {
    var armed := OneArmed(s, op);
    ClaimsAndAuthorizes(index, s, op, env);
    ArmsIt(index, s, op);
    Passes(index, s, At(s, Authorized(op.rpc, s.record), true), At(armed, Written(op, armed.record), true));
    Confirms(index, s, op, env);
    Passes(index, s, At(armed, Written(op, armed.record), true), At(armed, Confirmed(op), true));
    Launches(index, armed, op);
    Passes(index, s, At(armed, Confirmed(op), true), With(armed, Launched(op)));
  }

  lemma Sends(index: BlockIndex, s: State, op: Armed)
    ensures Reaches(index, With(s, Launched(op)), With(s.(sent := Then(s.sent, op)), InFlight(op)))
  {
    var s0 := With(s, Launched(op));
    Stays(index, s0);
    Takes(index, s0, s0, Collecting(0, Dispatch));
    assert Apply(index, s0, Collecting(0, Dispatch)) == With(s.(sent := Then(s.sent, op)), InFlight(op));
  }

  lemma Responds(index: BlockIndex, s: State, receipt: Receipt)
    ensures Reaches(index, With(s, InFlight(receipt.request)), With(s, Holding(receipt)))
  {
    var s1 := With(s, InFlight(receipt.request));
    Stays(index, s1);
    var respond := Collecting(0, Respond(receipt.hash, receipt.receivedAt));
    Takes(index, s1, s1, respond);
    assert Apply(index, s1, respond) == With(s, Holding(receipt));
  }

  lemma Rereads(index: BlockIndex, s: State, receipt: Receipt)
    ensures Reaches(index, With(s, Holding(receipt)), With(s, Collected(receipt, s.record)))
  {
    var s2 := With(s, Holding(receipt));
    Stays(index, s2);
    Takes(index, s2, s2, Collecting(0, Collect));
    assert Apply(index, s2, Collecting(0, Collect)) == With(s, Collected(receipt, s.record));
  }

  function Booked(s: State, receipt: Receipt, record: Record): (t: State)
  {
    s.(workers := map[0 := IDLE], accounted := Then(s.accounted, receipt), record := record)
  }

  lemma Accounts(index: BlockIndex, s: State, receipt: Receipt, delay: Option<int>)
    requires s.record.armed == Some(receipt.request) && Accounted(s.record, receipt, delay).Some?
    ensures Reaches(index, With(s, Collected(receipt, s.record)), Booked(s, receipt, Accounted(s.record, receipt, delay).value))
  {
    var s3 := With(s, Collected(receipt, s.record));
    Stays(index, s3);
    Takes(index, s3, s3, Collecting(0, Account(delay, Received)));
    assert Apply(index, s3, Collecting(0, Account(delay, Received))) ==
      Booked(s, receipt, Accounted(s.record, receipt, delay).value);
  }

  lemma Collects(index: BlockIndex, s: State, receipt: Receipt, delay: Option<int>)
    requires s.record.armed == Some(receipt.request) && Accounted(s.record, receipt, delay).Some?
    ensures var op := receipt.request;
      Reaches(index, With(s, Launched(op)),
        Booked(s.(sent := Then(s.sent, op)), receipt, Accounted(s.record, receipt, delay).value))
  {
    var op := receipt.request;
    var sent := s.(sent := Then(s.sent, op));
    Sends(index, s, op);
    Responds(index, sent, receipt);
    Passes(index, With(s, Launched(op)), With(sent, InFlight(op)), With(sent, Holding(receipt)));
    Rereads(index, sent, receipt);
    Passes(index, With(s, Launched(op)), With(sent, Holding(receipt)), With(sent, Collected(receipt, s.record)));
    Accounts(index, sent, receipt, delay);
    Passes(index, With(s, Launched(op)), With(sent, Collected(receipt, s.record)),
      Booked(sent, receipt, Accounted(s.record, receipt, delay).value));
  }

  /** The state after one RPC was armed, sent, answered and accounted. */
  function Served(s: State, receipt: Receipt, record: Record): (t: State)
  {
    Booked(OneArmed(s, receipt.request).(sent := Then(s.sent, receipt.request)), receipt, record)
  }

  /** One RPC: armed, sent once, answered and accounted. */
  lemma RpcRuns(index: BlockIndex, s: State, env: Answers, receipt: Receipt, delay: Option<int>)
    requires Sendable(s, receipt.request, env)
    requires Accounted(ArmedRecord(s.record, receipt.request), receipt, delay).Some?
    ensures Reaches(index, s, Served(s, receipt, Accounted(ArmedRecord(s.record, receipt.request), receipt, delay).value))
  {
    var op := receipt.request;
    var armed := OneArmed(s, op);
    ArmsAndLaunches(index, s, op, env);
    Collects(index, armed, receipt, delay);
    Passes(index, s, With(armed, Launched(op)), Served(s, receipt, Accounted(armed.record, receipt, delay).value));
  }

  // ---------------------------------------------------------------------------
  // Admission, conclusion and release

  predicate Open(q: Request, a: Reservation)
  {
    && q.present && q.kind == a.kind && q.deletedAt.None? && q.finalizer
    && !Terminal(q.status.phase) && q.status.admitted == Some(a.admission)
  }

  function Concluded(s: State, uid: Uid, status: Status): (t: State)
    requires uid in s.requests
  {
    s.(requests := s.requests[uid := s.requests[uid].(version := s.requests[uid].version + 1, status := status)])
  }

  lemma Observes(index: BlockIndex, s: State, uid: Uid)
    requires s.reconciles == map[] && uid in s.requests && s.requests[uid].present
    ensures Reaches(index, s, s.(reconciles := map[0 := Located(uid, s.requests[uid], Some(s.record), true)]))
  {
    Stays(index, s);
    Takes(index, s, s, Lifecycle(0, Observe(uid)));
    var s1 := s.(reconciles := map[0 := Holds(uid, s.requests[uid])]);
    Takes(index, s, s1, Lifecycle(0, Locate(true, true)));
    assert Apply(index, s1, Lifecycle(0, Locate(true, true))) ==
      s.(reconciles := map[0 := Located(uid, s.requests[uid], Some(s.record), true)]);
  }

  lemma Judges(index: BlockIndex, s: State, uid: Uid, r: Reconcile, now: int)
    requires s.reconciles == map[] && uid in s.requests && s.requests[uid].present
    requires r == Located(uid, s.requests[uid], Some(s.record), true)
    requires ConcludedStatus(r, false, now) != s.requests[uid].status
    ensures Reaches(index, s.(reconciles := map[0 := r]), Concluded(s, uid, ConcludedStatus(r, false, now)))
  {
    var s2 := s.(reconciles := map[0 := r]);
    Stays(index, s2);
    Takes(index, s2, s2, Lifecycle(0, Judge(false, now)));
    assert s2.reconciles - {0} == map[];
    assert Apply(index, s2, Lifecycle(0, Judge(false, now))) == Concluded(s, uid, ConcludedStatus(r, false, now));
  }

  /** A reconcile that finds the record and writes what it concludes. */
  lemma ReconcileRuns(index: BlockIndex, s: State, uid: Uid, now: int) returns (t: State)
    requires s.reconciles == map[] && uid in s.requests && s.requests[uid].present
    requires ConcludedStatus(Located(uid, s.requests[uid], Some(s.record), true), false, now) != s.requests[uid].status
    ensures Reaches(index, s, t)
    ensures t == Concluded(s, uid, ConcludedStatus(Located(uid, s.requests[uid], Some(s.record), true), false, now))
  {
    var r := Located(uid, s.requests[uid], Some(s.record), true);
    Observes(index, s, uid);
    Judges(index, s, uid, r, now);
    t := Concluded(s, uid, ConcludedStatus(r, false, now));
    Passes(index, s, s.(reconciles := map[0 := r]), t);
  }

  /** A new request with its finalizer and an idle worker beside it. */
  lemma Opens(index: BlockIndex, s: State, uid: Uid, kind: Kind, expiresAt: int) returns (t: State)
    requires Init(s)
    ensures Reaches(index, s, t)
    ensures t == s.(requests := map[uid := Created(kind, expiresAt).(version := 1, finalizer := true)],
                    workers := map[0 := IDLE], processes := {0})
  {
    var s3 := s.(requests := map[uid := Created(kind, expiresAt).(version := 1, finalizer := true)]);
    Finalized(index, s, uid, kind, expiresAt);
    Takes(index, s, s3, Cluster(Spawn(0)));
    t := Apply(index, s3, Cluster(Spawn(0)));
    assert {} + {0} == {0};
  }

  lemma Finalized(index: BlockIndex, s: State, uid: Uid, kind: Kind, expiresAt: int)
    requires Init(s)
    ensures Reaches(index, s, s.(requests := map[uid := Created(kind, expiresAt).(version := 1, finalizer := true)]))
  {
    Stays(index, s);
    Takes(index, s, s, Cluster(Create(uid, kind, expiresAt)));
    var s1 := s.(requests := map[uid := Created(kind, expiresAt)]);
    Takes(index, s, s1, Lifecycle(0, Observe(uid)));
    var s2 := s1.(reconciles := map[0 := Holds(uid, Created(kind, expiresAt))]);
    Takes(index, s, s2, Lifecycle(0, Finalize(true, false)));
    assert s2.reconciles - {0} == map[];
    assert Apply(index, s2, Lifecycle(0, Finalize(true, false))) ==
      s.(requests := map[uid := Created(kind, expiresAt).(version := 1, finalizer := true)]);
  }

  lemma Looks(index: BlockIndex, s: State, uid: Uid)
    requires Rests(s) && uid in s.requests && (s.record.action.Some? ==> s.record.action.value.request == uid)
    ensures Reaches(index, s, At(s, Viewed(s.record, uid, ReadRequest(s, uid)), false))
  {
    Fetches(index, s);
    var s1 := At(s, Read(s.record), false);
    Takes(index, s, s1, Stepping(0, Look(uid)));
    assert Apply(index, s1, Stepping(0, Look(uid))) == At(s, Viewed(s.record, uid, ReadRequest(s, uid)), false);
  }

  function Granted(s: State, uid: Uid, a: Reservation): (t: State)
  {
    s.(record := Bumped(s.record).(action := Some(a), owner := Some(Finite(uid))), reserved := Then(s.reserved, uid))
  }

  /** The record can be granted to this request on the tip read. */
  predicate Grantable(index: BlockIndex, s: State, uid: Uid, tip: Option<ChainPoint>)
  {
    && Rests(s) && uid in s.requests && s.record.action.None? && s.record.owner.None?
    && Eligible(ReadRequest(s, uid), 0)
    && (s.requests[uid].kind.Reorganization? ==>
          tip.Some? && Header(index, tip.value.hash) == tip && Capture(index, s.requests[uid].kind.depth, tip.value).Some?)
  }

  lemma GrantsFrom(index: BlockIndex, s: State, uid: Uid, admission: Admission, tip: Option<ChainPoint>)
    requires Grantable(index, s, uid, tip)
    ensures Reaches(index, At(s, Viewed(s.record, uid, ReadRequest(s, uid)), false),
      Granted(s, uid, NewReservation(index, s.record, uid, s.requests[uid], admission, tip)))
  {
    var s2 := At(s, Viewed(s.record, uid, ReadRequest(s, uid)), false);
    var e := Stepping(0, Reserve(admission, 0, tip));
    Stays(index, s2);
    Takes(index, s2, s2, e);
    assert Apply(index, s2, e).workers == map[0 := IDLE];
    assert Apply(index, s2, e) == Granted(s, uid, NewReservation(index, s.record, uid, s.requests[uid], admission, tip));
  }

  /** The request is granted the record. */
  lemma Reserves(index: BlockIndex, s: State, uid: Uid, admission: Admission, tip: Option<ChainPoint>)
    requires Grantable(index, s, uid, tip)
    ensures Reaches(index, s, Granted(s, uid, NewReservation(index, s.record, uid, s.requests[uid], admission, tip)))
  {
    Looks(index, s, uid);
    GrantsFrom(index, s, uid, admission, tip);
    Passes(index, s, At(s, Viewed(s.record, uid, ReadRequest(s, uid)), false),
      Granted(s, uid, NewReservation(index, s.record, uid, s.requests[uid], admission, tip)));
  }

  /** From nothing to an acknowledged reservation. */
  lemma AdmissionRuns(index: BlockIndex, s: State, uid: Uid, kind: Kind, admission: Admission, expiresAt: int,
                      tip: Option<ChainPoint>) returns (t: State)
    requires Init(s) && 0 < expiresAt
    requires kind.Generation? ==> 1 <= kind.count <= 100
    requires kind.Reorganization? ==>
      tip.Some? && Header(index, tip.value.hash) == tip && Capture(index, kind.depth, tip.value).Some?
    ensures Reaches(index, s, t) && Rests(t) && t.ids == {}
    ensures t.record.owner == Some(Finite(uid)) && uid in t.requests && t.requests[uid].kind == kind
    ensures t.record.action == Some(Reserved(uid, kind, admission, expiresAt, tip,
      if kind.Reorganization? then Capture(index, kind.depth, tip.value) else None))
    ensures Open(t.requests[uid], t.record.action.value)
  {
    var ready := Opens(index, s, uid, kind, expiresAt);
    Reserves(index, ready, uid, admission, tip);
    var granted := Granted(ready, uid, NewReservation(index, ready.record, uid, ready.requests[uid], admission, tip));
    Passes(index, s, ready, granted);
    t := ReconcileRuns(index, granted, uid, 0);
    Passes(index, s, granted, t);
  }

  function Freed(s: State, uid: Uid, a: Reservation): (t: State)
  {
    s.(record := Bumped(s.record).(action := None, owner := None), closed := s.closed[uid := a])
  }

  /** Once the status shows what the record shows, the worker gives the record back. */
  lemma Releases(index: BlockIndex, s: State, uid: Uid)
    requires Rests(s) && uid in s.requests
    requires s.record.action.Some? && s.record.action.value.request == uid
    requires Releasable(s.record.action.value, ReadRequest(s, uid))
    ensures Reaches(index, s, Freed(s, uid, s.record.action.value))
  {
    Looks(index, s, uid);
    var s2 := At(s, Viewed(s.record, uid, ReadRequest(s, uid)), false);
    Takes(index, s, s2, Stepping(0, Release));
    assert Apply(index, s2, Stepping(0, Release)).workers == map[0 := IDLE];
    assert Apply(index, s2, Stepping(0, Release)) == Freed(s, uid, s.record.action.value);
  }

  /** A completed action is concluded, and its record is free again. */
  lemma Concludes(index: BlockIndex, s: State, uid: Uid, now: int) returns (t: State)
    requires Rests(s) && uid in s.requests && s.record.action.Some? && Open(s.requests[uid], s.record.action.value)
    requires var a := s.record.action.value;
      && a.request == uid && Complete(a) && a.stopReason == Running && !a.effectUncertain && !a.cleanupUnsafe
      && (a.kind.Generation? ==> a.lastCompletedAt.Some? && a.lastCompletedAt.value <= a.expiresAt)
    ensures Reaches(index, s, t) && Rests(t) && t.record.action.None? && t.record.owner.None?
    ensures uid in t.requests && t.requests[uid].kind == s.requests[uid].kind
    ensures t.requests[uid].status.phase == Completed && t.requests[uid].status.final == s.record.action.value.final
    ensures uid in t.closed && t.closed[uid] == s.record.action.value
  {
    var done := ReconcileRuns(index, s, uid, now);
    Releases(index, done, uid);
    t := Freed(done, uid, done.record.action.value);
    Passes(index, s, done, t);
  }

  // ---------------------------------------------------------------------------
  // Block generation

  function SomeHash(n: nat): (h: string)
    ensures |h| == n && forall i :: 0 <= i < n ==> h[i] == '0'
  {
    if n == 0 then "" else SomeHash(n - 1) + "0"
  }

  function Call(uid: Uid, address: nat): (rpc: Rpc)
  {
    Rpc(Generate, Some(uid), None, "", address)
  }

  /** The request is acknowledged and k of its blocks are accounted. */
  ghost predicate Midway(s: State, uid: Uid, count: nat, k: nat)
  {
    && k <= count && Rests(s) && (forall n: nat :: k <= n ==> Id(0, n) !in s.ids)
    && s.record.owner == Some(Finite(uid)) && s.record.action.Some?
    && Fresh(s.record.action.value, uid, count, k)
    && uid in s.requests && Open(s.requests[uid], s.record.action.value)
  }

  predicate Fresh(a: Reservation, uid: Uid, count: nat, k: nat)
  {
    && a.request == uid && a.kind.Generation? && a.kind.count == count && a.blocks == k && 0 < a.expiresAt
    && a.stopReason == Running && !a.effectUncertain && !a.cleanupUnsafe
    && (a.nextDispatchAt.None? || a.nextDispatchAt == Some(0))
    && (0 < k ==> a.lastCompletedAt == Some(0))
  }

  function Block(s: State, uid: Uid, k: nat): (receipt: Receipt)
    requires s.record.action.Some?
  {
    Receipt(Armed(Id(0, k), Call(uid, s.record.action.value.kind.address)), SomeHash(HASH_DIGITS), 0)
  }

  lemma BlockIsSendable(s: State, uid: Uid, count: nat, k: nat)
    requires Midway(s, uid, count, k) && k < count
    ensures Sendable(s, Block(s, uid, k).request, Willing(0, None))
  {
  }

  lemma BlockBooks(s: State, uid: Uid, count: nat, k: nat)
    requires Midway(s, uid, count, k) && k < count
    ensures var receipt := Block(s, uid, k); var r := Accounted(ArmedRecord(s.record, receipt.request), receipt, Some(0));
      r.Some? && Midway(Served(s, receipt, r.value), uid, count, k + 1)
  {
    assert HashValid(SomeHash(HASH_DIGITS));
  }

  /** One block: armed, sent once, answered and accounted. */
  lemma BlockRuns(index: BlockIndex, s: State, uid: Uid, count: nat, k: nat) returns (t: State)
    requires Midway(s, uid, count, k) && k < count
    ensures Reaches(index, s, t) && Midway(t, uid, count, k + 1)
  {
    var receipt := Block(s, uid, k);
    BlockIsSendable(s, uid, count, k);
    BlockBooks(s, uid, count, k);
    RpcRuns(index, s, Willing(0, None), receipt, Some(0));
    t := Served(s, receipt, Accounted(ArmedRecord(s.record, receipt.request), receipt, Some(0)).value);
  }

  lemma {:induction false} BlocksRun(index: BlockIndex, s: State, uid: Uid, count: nat, k: nat) returns (t: State)
    requires Midway(s, uid, count, k)
    ensures Reaches(index, s, t) && Midway(t, uid, count, count)
    decreases count - k
  {
    if k == count {
      Stays(index, s);
      t := s;
    } else {
      var m := BlockRuns(index, s, uid, count, k);
      t := BlocksRun(index, m, uid, count, k + 1);
      Passes(index, s, m, t);
    }
  }

  /** Every block generation the API accepts can be completed, after which its record is free for the next. */
  lemma GenerationsCanComplete(
    index: BlockIndex, s: State, uid: Uid, count: nat, address: nat, admission: Admission, expiresAt: int)
    returns (t: State)
    requires Init(s) && 1 <= count <= 100 && 0 < expiresAt
    ensures Reaches(index, s, t) && Rests(t) && t.record.action.None? && t.record.owner.None?
    ensures uid in t.requests && t.requests[uid].kind.Generation? && t.requests[uid].kind.count == count
    ensures t.requests[uid].status.phase == Completed && uid in t.closed && t.closed[uid].blocks == count
  {
    var admitted := AdmissionRuns(index, s, uid, Generation(count, address), admission, expiresAt, None);
    var done := BlocksRun(index, admitted, uid, count, 0);
    Passes(index, s, admitted, done);
    t := Concludes(index, done, uid, 0);
    Passes(index, s, done, t);
  }

  // ---------------------------------------------------------------------------
  // Offers

  /** Every published offer can be executed: sent once, counted with all its blocks, and completed under its number. */
  lemma OffersCanComplete(index: BlockIndex, s: State, offer: Offer, hash: string, at: int) returns (t: State)
    requires Init(s) && 1 <= offer.number
    ensures Reaches(index, s, t) && Rests(t)
    ensures t.record.completed == offer.number && t.record.blocks == OfferBlocks(offer.count)
    ensures t.sent.Then? && t.sent.past == Start && t.sent.last.rpc.offer == Some(offer) && t.sent.last.rpc.verb == Generate
    ensures t.record.receipt == Some(Receipt(t.sent.last, hash, at))
  {
    Stays(index, s);
    Takes(index, s, s, Cluster(Spawn(0)));
    var s1 := s.(workers := map[0 := IDLE], processes := {0});
    assert {} + {0} == {0};
    assert Apply(index, s, Cluster(Spawn(0))) == s1;
    Takes(index, s, s1, Cluster(Publish(offer)));
    var s2 := s1.(record := Bumped(s1.record).(offer := Some(offer)));
    var receipt := Receipt(Armed(Id(0, 0), Rpc(Generate, None, Some(offer), "", 0)), hash, at);
    RpcRuns(index, s2, Willing(at, None), receipt, None);
    t := Served(s2, receipt, Accounted(ArmedRecord(s2.record, receipt.request), receipt, None).value);
    Passes(index, s, s2, t);
  }
}
