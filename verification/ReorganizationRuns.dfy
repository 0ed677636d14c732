/**
 * The protocol can finish every reorganization the chain allows: from a linked original suffix and a linked heavier
 * replacement there is a run that invalidates the suffix, generates and verifies every replacement block,
 * reconsiders, sets the final chain and concludes Completed.
 */
module ReorganizationRuns {
  import opened Common
  import opened Hex
  import opened Reservations
  import opened Lifecycle
  import opened Authority
  import opened AuthorityRuns

  const SECOND := 1_000_000_000

  // ---------------------------------------------------------------------------
  // Chains as Core knows them

  /** A header that Core answers completely and consistently. */
  predicate Known(index: BlockIndex, p: ChainPoint)
  {
    index(p.hash) == p && HashValid(p.hash) && 0 <= p.height && HashValid(p.work) && (0 < p.height ==> HashValid(p.previous))
  }

  /** Consecutive known headers, each naming the one before it and carrying more work. */
  ghost predicate Chain(index: BlockIndex, points: seq<ChainPoint>)
  {
    && (forall i :: 0 <= i < |points| ==> Known(index, points[i]))
    && (forall i :: 0 < i < |points| ==> Follows(points[i - 1], points[i]))
  }

  predicate Follows(p: ChainPoint, q: ChainPoint)
    requires HashValid(p.work) && HashValid(q.work)
  {
    q.previous == p.hash && q.height == p.height + 1 && Value(p.work) < Value(q.work)
  }

  /**
   * What Core holds: the original chain from the fork to the tip, and the replacement from the same fork, one block
   * longer and heavier.
   */
  ghost predicate Stage(index: BlockIndex, original: seq<ChainPoint>, branch: seq<ChainPoint>)
  {
    && Chain(index, original) && Chain(index, branch)
    && 2 <= |original| <= 7 && |branch| == |original| + 1 && branch[0] == original[0]
    && Value(original[|original| - 1].work) < Value(branch[|branch| - 1].work)
  }

  lemma KnownIsHeader(index: BlockIndex, p: ChainPoint)
    requires Known(index, p)
    ensures Header(index, p.hash) == Some(p)
  {
  }

  lemma FollowsIsParent(index: BlockIndex, p: ChainPoint, q: ChainPoint)
    requires Known(index, p) && Known(index, q) && Follows(p, q)
    ensures Parent(index, q) == Some(p)
  {
    TextOrderIsNumeric(p.work, q.work);
  }

  lemma {:induction false} AncestorsAreTheChain(index: BlockIndex, points: seq<ChainPoint>, n: nat)
    requires Chain(index, points) && n < |points|
    ensures Ancestor(index, points[|points| - 1], n) == Some(points[|points| - 1 - n])
  {
    if n != 0 {
      AncestorsAreTheChain(index, points, n - 1);
      FollowsIsParent(index, points[|points| - 1 - n], points[|points| - n]);
    }
  }

  lemma CapturesTheFork(index: BlockIndex, original: seq<ChainPoint>, branch: seq<ChainPoint>)
    requires Stage(index, original, branch)
    ensures var depth := |original| - 1;
      Capture(index, depth, original[depth]) == Some(Captured(original[0], original[1].hash))
  {
    var depth := |original| - 1;
    AncestorsAreTheChain(index, original, depth);
    AncestorsAreTheChain(index, original, depth - 1);
    HeightsRise(index, original, depth);
  }

  lemma {:induction false} HeightsRise(index: BlockIndex, points: seq<ChainPoint>, i: nat)
    requires Chain(index, points) && i < |points|
    ensures points[i].height == points[0].height + i
  {
    if i != 0 {
      HeightsRise(index, points, i - 1);
      assert Follows(points[i - 1], points[i]);
    }
  }

  function Hashes(points: seq<ChainPoint>): (r: seq<string>)
    ensures |r| == |points| && forall i :: 0 <= i < |points| ==> r[i] == points[i].hash
  {
    seq(|points|, i requires 0 <= i < |points| => points[i].hash)
  }

  // ---------------------------------------------------------------------------
  // The reservation on its way

  /** What the reservation was granted for, and that nothing has gone wrong. */
  predicate Granted(a: Reservation, uid: Uid, original: seq<ChainPoint>, branch: seq<ChainPoint>)
    requires 2 <= |original| && 1 <= |branch|
  {
    var depth := |original| - 1;
    && a.request == uid && a.kind.Reorganization? && a.kind.depth == depth && depth * SECOND < a.expiresAt
    && a.stopReason == Running && !a.effectUncertain && !a.cleanupUnsafe && a.final.None?
    && a.original == Some(original[depth]) && a.fork == Some(branch[0]) && a.invalidated == original[1].hash
  }

  /** k replacement blocks are accounted, v of them verified. */
  predicate Replaced(a: Reservation, branch: seq<ChainPoint>, k: nat, v: nat)
    requires k < |branch| && v < |branch|
  {
    && a.invalidationAck && a.blocks == k && a.replacements == Hashes(branch[1..k + 1])
    && a.accepted == (if v == 0 then None else Some(branch[v]))
    && (a.nextDispatchAt.None? || a.nextDispatchAt.value <= k * SECOND)
  }

  /** The request is acknowledged and nothing beyond the first n nonces was used. */
  ghost predicate Holds(s: State, uid: Uid, n: nat)
  {
    && Rests(s) && (forall m: nat :: n <= m ==> Id(0, m) !in s.ids)
    && s.record.owner == Some(Finite(uid)) && s.record.action.Some?
    && uid in s.requests && Open(s.requests[uid], s.record.action.value)
  }

  function Step(uid: Uid, verb: Verb, n: nat, a: Reservation, hash: string, at: int): (receipt: Receipt)
  {
    Receipt(Armed(Id(0, n), Rpc(verb, Some(uid), None, a.invalidated, a.kind.address)), hash, at)
  }

  /** The record after the RPC, when the receipt is accounted. */
  function Next(record: Record, receipt: Receipt): (r: Option<Record>)
  {
    Accounted(ArmedRecord(record, receipt.request), receipt, None)
  }

  // Invalidation ----------------------------------------------------------------

  lemma InvalidationIsSendable(s: State, uid: Uid, original: seq<ChainPoint>, branch: seq<ChainPoint>)
    requires 2 <= |original| && 1 <= |branch|
    requires Holds(s, uid, 0) && Granted(s.record.action.value, uid, original, branch)
    requires Untouched(s.record.action.value)
    ensures Sendable(s, Step(uid, Invalidate, 0, s.record.action.value, "", 0).request,
      Willing(0, Some(original[|original| - 1])))
  {
  }

  lemma InvalidationBooks(s: State, uid: Uid, original: seq<ChainPoint>, branch: seq<ChainPoint>)
    requires 2 <= |original| && 1 <= |branch|
    requires Holds(s, uid, 0) && Granted(s.record.action.value, uid, original, branch)
    requires Untouched(s.record.action.value)
    ensures var receipt := Step(uid, Invalidate, 0, s.record.action.value, "", 0); var r := Next(s.record, receipt);
      && r.Some? && r.value.action.Some? && Holds(Served(s, receipt, r.value), uid, 1)
      && Granted(r.value.action.value, uid, original, branch) && !r.value.action.value.cleanupAck
      && Replaced(r.value.action.value, branch, 0, 0)
  {
    assert branch[1..1] == [];
  }

  // Replacement -----------------------------------------------------------------

  /** A reorganization with k blocks replaced, all of them verified. */
  ghost predicate Replacing(s: State, uid: Uid, original: seq<ChainPoint>, branch: seq<ChainPoint>, k: nat)
  {
    && 2 <= |original| && k < |branch| && Holds(s, uid, k + 1)
    && Granted(s.record.action.value, uid, original, branch) && !s.record.action.value.cleanupAck
    && Replaced(s.record.action.value, branch, k, k)
  }

  function Mining(s: State, uid: Uid, branch: seq<ChainPoint>, k: nat): (receipt: Receipt)
    requires s.record.action.Some? && k + 1 < |branch|
  {
    Step(uid, Generate, k + 1, s.record.action.value, branch[k + 1].hash, k * SECOND)
  }

  lemma BlockIsSendable(index: BlockIndex, s: State, uid: Uid, original: seq<ChainPoint>, branch: seq<ChainPoint>, k: nat)
    requires Stage(index, original, branch) && k < |original| && Replacing(s, uid, original, branch, k)
    ensures Sendable(s, Mining(s, uid, branch, k).request, Willing(k * SECOND, Some(branch[k])))
  {
    HeightsRise(index, branch, k);
    assert k * SECOND <= (|original| - 1) * SECOND;
  }

  lemma BlockBooks(index: BlockIndex, s: State, uid: Uid, original: seq<ChainPoint>, branch: seq<ChainPoint>, k: nat)
    requires Stage(index, original, branch) && k < |original| && Replacing(s, uid, original, branch, k)
    ensures var receipt := Mining(s, uid, branch, k); var r := Next(s.record, receipt);
      && r.Some? && r.value.action.Some? && Holds(Served(s, receipt, r.value), uid, k + 2)
      && Granted(r.value.action.value, uid, original, branch) && !r.value.action.value.cleanupAck
      && Replaced(r.value.action.value, branch, k + 1, k)
  {
    var receipt := Mining(s, uid, branch, k);
    BlockReserves(index, s.record.action.value, uid, original, branch, k, receipt.request.id);
    assert Next(s.record, receipt).Some?;
  }

  /** What the receipt makes of the reservation. */
  lemma BlockReserves(index: BlockIndex, a: Reservation, uid: Uid, original: seq<ChainPoint>, branch: seq<ChainPoint>, k: nat, id: Id)
    requires Stage(index, original, branch) && k < |original|
    requires Granted(a, uid, original, branch) && !a.cleanupAck && Replaced(a, branch, k, k)
    ensures var r := AccountReceipt(a.(started := true), Generate, id, branch[k + 1].hash, k * SECOND, None);
      && r.Some? && Granted(r.value, uid, original, branch) && !r.value.cleanupAck && Replaced(r.value, branch, k + 1, k)
      && r.value.request == a.request && r.value.kind == a.kind && r.value.admission == a.admission
  {
    assert Known(index, branch[k + 1]);
    assert Hashes(branch[1..k + 1]) + [branch[k + 1].hash] == Hashes(branch[1..k + 2]);
    WholeSeconds(k + 1);
    assert k * SECOND + SECOND == (k + 1) * SECOND;
  }

  lemma WholeSeconds(n: nat)
    ensures CeilSecond(n * SECOND) == n * SECOND
  {
  }

  /** The next replacement header is accepted, because it follows. */
  lemma HeaderIsAccepted(index: BlockIndex, a: Reservation, uid: Uid, original: seq<ChainPoint>, branch: seq<ChainPoint>, k: nat)
    requires Stage(index, original, branch) && k < |original|
    requires Granted(a, uid, original, branch) && Replaced(a, branch, k + 1, k)
    ensures VerifyReplacement(index, a) == Accepted(a.(accepted := Some(branch[k + 1])))
  {
    HeightsRise(index, branch, k);
    assert Known(index, branch[k]) && Known(index, branch[k + 1]) && Follows(branch[k], branch[k + 1]);
    KnownIsHeader(index, branch[k + 1]);
    TextOrderIsNumeric(branch[k].work, branch[k + 1].work);
    assert a.replacements[k] == branch[k + 1].hash;
  }

  function Rewritten(s: State, a: Reservation): (t: State)
  {
    s.(record := Bumped(s.record).(action := Some(a)))
  }

  lemma Verifies(index: BlockIndex, s: State, b: Reservation)
    requires Rests(s) && s.record.action.Some?
    requires var a := s.record.action.value;
      a.kind.Reorganization? && a.final.None? && a.invalidationAck && a.stopReason == Running &&
      VerifyReplacement(index, a) == Accepted(b)
    ensures Reaches(index, s, Rewritten(s, b))
  {
    Fetches(index, s);
    var s1 := At(s, Read(s.record), false);
    Takes(index, s, s1, Stepping(0, Verify));
    assert Apply(index, s1, Stepping(0, Verify)).workers == map[0 := IDLE];
    assert Apply(index, s1, Stepping(0, Verify)) == Rewritten(s, b);
  }

  /** One replacement block: armed, sent, accounted and verified. */
  lemma BlockRuns(index: BlockIndex, s: State, uid: Uid, original: seq<ChainPoint>, branch: seq<ChainPoint>, k: nat)
    returns (t: State)
    requires Stage(index, original, branch) && k < |original| && Replacing(s, uid, original, branch, k)
    ensures Reaches(index, s, t) && Replacing(t, uid, original, branch, k + 1) && t.requests == s.requests
  {
    var receipt := Mining(s, uid, branch, k);
    BlockIsSendable(index, s, uid, original, branch, k);
    BlockBooks(index, s, uid, original, branch, k);
    RpcRuns(index, s, Willing(k * SECOND, Some(branch[k])), receipt, None);
    var mined := Served(s, receipt, Next(s.record, receipt).value);
    var a := mined.record.action.value;
    HeaderIsAccepted(index, a, uid, original, branch, k);
    var b := a.(accepted := Some(branch[k + 1]));
    Verifies(index, mined, b);
    t := Rewritten(mined, b);
    Passes(index, s, mined, t);
    assert Replaced(b, branch, k + 1, k + 1);
  }

  lemma {:induction false} BlocksRun(
    index: BlockIndex, s: State, uid: Uid, original: seq<ChainPoint>, branch: seq<ChainPoint>, k: nat) returns (t: State)
    requires Stage(index, original, branch) && k <= |original| && Replacing(s, uid, original, branch, k)
    ensures Reaches(index, s, t) && Replacing(t, uid, original, branch, |original|) && t.requests == s.requests
    decreases |original| - k
  {
    if k == |original| {
      Stays(index, s);
      t := s;
    } else {
      var m := BlockRuns(index, s, uid, original, branch, k);
      t := BlocksRun(index, m, uid, original, branch, k + 1);
      Passes(index, s, m, t);
    }
  }

  // Compensation and conclusion ---------------------------------------------------

  lemma ReconsiderationIsSendable(s: State, uid: Uid, original: seq<ChainPoint>, branch: seq<ChainPoint>)
    requires |branch| == |original| + 1 && Replacing(s, uid, original, branch, |original|)
    ensures var n := |original|;
      Sendable(s, Step(uid, Reconsider, n + 1, s.record.action.value, "", n * SECOND).request, Willing(n * SECOND, None))
  {
  }

  lemma ReconsiderationBooks(s: State, uid: Uid, original: seq<ChainPoint>, branch: seq<ChainPoint>)
    requires |branch| == |original| + 1 && Replacing(s, uid, original, branch, |original|)
    ensures var n := |original|;
      var receipt := Step(uid, Reconsider, n + 1, s.record.action.value, "", n * SECOND); var r := Next(s.record, receipt);
      && r.Some? && r.value.action.Some? && Holds(Served(s, receipt, r.value), uid, n + 2)
      && Granted(r.value.action.value, uid, original, branch) && r.value.action.value.cleanupAck
      && Replaced(r.value.action.value, branch, n, n)
  {
  }

  /** With everything verified and compensated, the heavier tip becomes the final chain. */
  lemma TipIsFinal(index: BlockIndex, a: Reservation, uid: Uid, original: seq<ChainPoint>, branch: seq<ChainPoint>)
    requires Stage(index, original, branch)
    requires Granted(a, uid, original, branch) && Replaced(a, branch, |original|, |original|) && a.cleanupAck
    ensures Finish(index, a, a.replacements, branch[|original|]) == Some(a.(final := Some(branch[|original|])))
  {
    var n := |original|;
    HeightsRise(index, branch, n);
    assert Known(index, branch[n]) && Known(index, original[n - 1]);
    TextOrderIsNumeric(original[n - 1].work, branch[n].work);
  }

  lemma Settles(index: BlockIndex, s: State, positions: seq<string>, tip: ChainPoint)
    requires Rests(s) && s.record.action.Some? && Finish(index, s.record.action.value, positions, tip).Some?
    ensures Reaches(index, s, Rewritten(s, Finish(index, s.record.action.value, positions, tip).value))
  {
    Fetches(index, s);
    var s1 := At(s, Read(s.record), false);
    var e := Stepping(0, Settle(positions, tip));
    Takes(index, s, s1, e);
    assert Apply(index, s1, e).workers == map[0 := IDLE];
    assert Apply(index, s1, e) == Rewritten(s, Finish(index, s.record.action.value, positions, tip).value);
  }

  /** Reconsider, set the final chain, conclude and give the record back. */
  lemma Finishes(index: BlockIndex, s: State, uid: Uid, original: seq<ChainPoint>, branch: seq<ChainPoint>) returns (t: State)
    requires Stage(index, original, branch) && Replacing(s, uid, original, branch, |original|)
    ensures Reaches(index, s, t) && Rests(t) && t.record.action.None? && t.record.owner.None?
    ensures uid in t.requests && t.requests[uid].kind == s.requests[uid].kind
    ensures t.requests[uid].status.phase == Completed && t.requests[uid].status.final == Some(branch[|original|])
    ensures uid in t.closed && t.closed[uid].final == Some(branch[|original|])
    ensures t.closed[uid].replacements == Hashes(branch[1..])
  {
    var n := |original|;
    var receipt := Step(uid, Reconsider, n + 1, s.record.action.value, "", n * SECOND);
    ReconsiderationIsSendable(s, uid, original, branch);
    ReconsiderationBooks(s, uid, original, branch);
    RpcRuns(index, s, Willing(n * SECOND, None), receipt, None);
    var undone := Served(s, receipt, Next(s.record, receipt).value);
    t := Ends(index, undone, uid, original, branch);
    Passes(index, s, undone, t);
  }

  lemma Ends(index: BlockIndex, s: State, uid: Uid, original: seq<ChainPoint>, branch: seq<ChainPoint>) returns (t: State)
    requires Stage(index, original, branch) && Holds(s, uid, |original| + 2)
    requires var a := s.record.action.value;
      Granted(a, uid, original, branch) && Replaced(a, branch, |original|, |original|) && a.cleanupAck
    ensures Reaches(index, s, t) && Rests(t) && t.record.action.None? && t.record.owner.None?
    ensures uid in t.requests && t.requests[uid].kind == s.requests[uid].kind
    ensures t.requests[uid].status.phase == Completed && t.requests[uid].status.final == Some(branch[|original|])
    ensures uid in t.closed && t.closed[uid].final == Some(branch[|original|])
    ensures t.closed[uid].replacements == Hashes(branch[1..])
  {
    var n := |original|;
    var a := s.record.action.value;
    TipIsFinal(index, a, uid, original, branch);
    Settles(index, s, a.replacements, branch[n]);
    var settled := Rewritten(s, a.(final := Some(branch[n])));
    t := Concludes(index, settled, uid, n * SECOND);
    Passes(index, s, settled, t);
    assert branch[1..n + 1] == branch[1..];
  }

  /** A reservation that has done nothing yet. */
  predicate Untouched(a: Reservation)
  {
    !a.invalidationAck && !a.cleanupAck && a.blocks == 0 && a.replacements == [] && a.accepted.None? && a.nextDispatchAt.None?
  }

  /** From nothing to the acknowledged reservation of the captured suffix. */
  lemma Admits(index: BlockIndex, s: State, uid: Uid, original: seq<ChainPoint>, branch: seq<ChainPoint>, address: nat,
               admission: Admission, expiresAt: int) returns (t: State)
    requires Init(s) && Stage(index, original, branch) && (|original| - 1) * SECOND < expiresAt
    ensures Reaches(index, s, t) && Holds(t, uid, 0) && t.requests[uid].kind == Reorganization(|original| - 1, address)
    ensures Granted(t.record.action.value, uid, original, branch) && Untouched(t.record.action.value)
  {
    var depth := |original| - 1;
    CapturesTheFork(index, original, branch);
    assert Known(index, original[depth]);
    KnownIsHeader(index, original[depth]);
    t := AdmissionRuns(index, s, uid, Reorganization(depth, address), admission, expiresAt, Some(original[depth]));
  }

  /** From the granted reservation to its acknowledged invalidation. */
  lemma Invalidates(index: BlockIndex, s: State, uid: Uid, original: seq<ChainPoint>, branch: seq<ChainPoint>) returns (t: State)
    requires Stage(index, original, branch) && Holds(s, uid, 0) && Granted(s.record.action.value, uid, original, branch)
    requires Untouched(s.record.action.value)
    ensures Reaches(index, s, t) && Replacing(t, uid, original, branch, 0) && t.requests == s.requests
  {
    var receipt := Step(uid, Invalidate, 0, s.record.action.value, "", 0);
    InvalidationIsSendable(s, uid, original, branch);
    InvalidationBooks(s, uid, original, branch);
    RpcRuns(index, s, Willing(0, Some(original[|original| - 1])), receipt, None);
    t := Served(s, receipt, Next(s.record, receipt).value);
  }

  /**
   * Every reorganization of depth 1 to 6 can be completed on every chain that allows it: where Core holds the
   * original suffix and a heavier replacement from its fork, and the deadline leaves a second between blocks, some
   * run ends with the request Completed, the replacement's last header as its final chain, and the record free.
   */
  lemma ReorganizationsCanComplete(
    index: BlockIndex, s: State, uid: Uid, original: seq<ChainPoint>, branch: seq<ChainPoint>, address: nat,
    admission: Admission, expiresAt: int) returns (t: State)
    requires Init(s) && Stage(index, original, branch) && (|original| - 1) * SECOND < expiresAt
    ensures Reaches(index, s, t) && Rests(t) && t.record.action.None? && t.record.owner.None?
    ensures uid in t.requests && t.requests[uid].kind == Reorganization(|original| - 1, address)
    ensures t.requests[uid].status.phase == Completed && t.requests[uid].status.final == Some(branch[|branch| - 1])
    ensures uid in t.closed && t.closed[uid].final == Some(branch[|branch| - 1])
    ensures t.closed[uid].replacements == Hashes(branch[1..])
  {
    var granted := Admits(index, s, uid, original, branch, address, admission, expiresAt);
    var undone := Invalidates(index, granted, uid, original, branch);
    Passes(index, s, granted, undone);
    var mined := BlocksRun(index, undone, uid, original, branch, 0);
    Passes(index, s, undone, mined);
    t := Finishes(index, mined, uid, original, branch);
    Passes(index, s, mined, t);
  }
}
