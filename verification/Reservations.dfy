/**
 * One finite action's reservation on an execution record: block generation, or replacement of a
 * local chain suffix. The record holds at most one reservation, and every change to it travels in a
 * compare-and-swap write of the whole record, so a reservation is a value and each change a function.
 */
module Reservations {
  import opened Common
  import opened Hex

  datatype ChainPoint = ChainPoint(hash: string, height: int, previous: string, work: string)

  /** Core's answer to a header read; a block hash fixes its header for ever. */
  type BlockIndex = string -> ChainPoint

  datatype Id = Id(process: nat, nonce: nat)

  datatype Kind = Generation(count: int, address: nat) | Reorganization(depth: int, address: nat)

  /** The identity a reservation was granted under, copied verbatim into the request's status. */
  datatype Admission = Admission(at: int, execution: Uid, target: nat, network: nat)

  datatype StopReason =
    | Running | CapabilityDisabled | ActionCancelled | NetworkPaused | NetworkStopped | UncertainEffect
    | DeadlineExceeded | IdentityDiverged | ExternalChainMovement | CleanupDeadlineExceeded
    | VerificationFailed | WorkInsufficient | NotCanonical

  datatype Reservation = Reservation(
    request: Uid,
    kind: Kind,
    admission: Admission,
    expiresAt: int,
    started: bool,
    nextDispatchAt: Option<int>,
    lastCompletedAt: Option<int>,
    blocks: int,
    lastDispatch: Option<Id>,
    stopReason: StopReason,
    effectUncertain: bool,
    cleanupUnsafe: bool,
    original: Option<ChainPoint>,
    fork: Option<ChainPoint>,
    accepted: Option<ChainPoint>,
    final: Option<ChainPoint>,
    invalidated: string,
    invalidationAck: bool,
    cleanupAck: bool,
    replacements: seq<string>)

  /** How many single-block generations the action is for. */
  function Quota(kind: Kind): (n: int)
  {
    match kind
    case Generation(count, _) => count
    case Reorganization(depth, _) => depth + 1
  }

  // ---------------------------------------------------------------------------
  // Headers and suffix capture

  /** actionHeader: only a complete, self-consistent header is an answer. */
  function Header(index: BlockIndex, hash: string): (r: Option<ChainPoint>)
    ensures r.Some? ==> r.value.hash == hash && r.value == index(hash) && HashValid(r.value.work)
  {
    var h := index(hash);
    if HashValid(hash) && h.hash == hash && 0 <= h.height && HashValid(h.work) &&
       (0 < h.height ==> HashValid(h.previous))
    then Some(h) else None
  }

  /** One backward step of the capture loop. */
  function Parent(index: BlockIndex, child: ChainPoint): (r: Option<ChainPoint>)
    ensures r.Some? ==> r.value.hash == child.previous && r.value.height + 1 == child.height
    ensures r.Some? ==> TextLess(r.value.work, child.work) && HashValid(r.value.work)
  {
    match Header(index, child.previous)
    case None => None
    case Some(h) => if h.height + 1 == child.height && TextLess(h.work, child.work) then Some(h) else None
  }

  /** The point `n` parents below `p`, when every one of those parents checks out. */
  function Ancestor(index: BlockIndex, p: ChainPoint, n: nat): (r: Option<ChainPoint>)
  {
    if n == 0 then Some(p)
    else
      match Ancestor(index, p, n - 1)
      case None => None
      case Some(q) => Parent(index, q)
  }

  datatype Captured = Captured(fork: ChainPoint, invalidated: string)

  /** What capturing a suffix of `depth` blocks under `tip` must produce. */
  function Capture(index: BlockIndex, depth: int, tip: ChainPoint): (r: Option<Captured>)
  {
    if !(1 <= depth <= 6) || tip.height < depth || Ancestor(index, tip, depth).None? || Ancestor(index, tip, depth - 1).None?
    then None
    else Some(Captured(Ancestor(index, tip, depth).value, Ancestor(index, tip, depth - 1).value.hash))
  }

  lemma {:induction false} FailedAncestorStaysFailed(index: BlockIndex, p: ChainPoint, n: nat, m: nat)
    requires n <= m && Ancestor(index, p, n).None?
    ensures Ancestor(index, p, m).None?
  {
    if n < m {
      FailedAncestorStaysFailed(index, p, n, m - 1);
    }
  }

  /** captureReorganization: the cursor walk, remembering the last block it stepped off. */
  method CaptureReorganization(index: BlockIndex, depth: int, tip: ChainPoint, latest: ChainPoint)
    returns (r: Option<Captured>)
    ensures r == if latest == tip then Capture(index, depth, tip) else None
  {
    if depth < 1 || depth > 6 || tip.height < depth {
      return None;
    }
    var cursor, invalidated, i := tip, "", 0;
    while i < depth
      invariant 0 <= i <= depth
      invariant Ancestor(index, tip, i) == Some(cursor)
      invariant 0 < i ==> Ancestor(index, tip, i - 1).Some? && Ancestor(index, tip, i - 1).value.hash == invalidated
    {
      invalidated := cursor.hash;
      var parent := Parent(index, cursor);
      if parent.None? {
        assert Ancestor(index, tip, i + 1).None?;
        FailedAncestorStaysFailed(index, tip, i + 1, depth);
        return None;
      }
      cursor := parent.value;
      i := i + 1;
    }
    if latest != tip {
      return None;
    }
    return Some(Captured(cursor, invalidated));
  }

  /** Every captured ancestor sits exactly `n` blocks lower and carries numerically less work. */
  lemma {:induction false} AncestorIsLower(index: BlockIndex, p: ChainPoint, n: nat)
    requires Ancestor(index, p, n).Some? && HashValid(p.work)
    ensures var q := Ancestor(index, p, n).value;
      q.height == p.height - n && HashValid(q.work) && Value(q.work) <= Value(p.work) &&
      (0 < n ==> Value(q.work) < Value(p.work))
  {
    if 0 < n {
      AncestorIsLower(index, p, n - 1);
      var q := Ancestor(index, p, n - 1).value;
      var r := Ancestor(index, p, n).value;
      TextOrderIsNumeric(r.work, q.work);
    }
  }

  // ---------------------------------------------------------------------------
  // Changes to a reservation

  function Reserved(request: Uid, kind: Kind, admission: Admission, expiresAt: int,
                    tip: Option<ChainPoint>, captured: Option<Captured>): (a: Reservation)
    requires kind.Reorganization? ==> tip.Some? && captured.Some?
  {
    var reorganizing := kind.Reorganization?;
    Reservation(request, kind, admission, expiresAt, false, None, None, 0, None, Running, false, false,
                if reorganizing then tip else None,
                if reorganizing then Some(captured.value.fork) else None,
                None, None,
                if reorganizing then captured.value.invalidated else "",
                false, false, [])
  }

  datatype Verb = Wallet | Generate | Invalidate | Reconsider

  /** Rounding of retained times up to a whole second, in nanoseconds. */
  function CeilSecond(t: int): (r: int)
    ensures t <= r < t + 1_000_000_000
  {
    var rest := t % 1_000_000_000;
    if rest == 0 then t else t - rest + 1_000_000_000
  }

  /**
   * accountActionReceipt. `delay` is the cadence sampler's answer for a non-final receipt, None when it
   * refuses; the result is None when nothing may be written.
   */
  function AccountReceipt(a: Reservation, verb: Verb, id: Id, hash: string, receivedAt: int, delay: Option<int>)
    : (r: Option<Reservation>)
  {
    var b := a.(lastDispatch := Some(id), lastCompletedAt := Some(CeilSecond(receivedAt)));
    match verb
    case Wallet => None
    case Invalidate => Some(b.(invalidationAck := true))
    case Reconsider => Some(b.(cleanupAck := true))
    case Generate =>
      if !HashValid(hash) then None
      else
        var c := b.(blocks := a.blocks + 1);
        if a.kind.Generation? then
          if c.blocks >= a.kind.count then Some(c.(nextDispatchAt := None))
          else if delay.None? then None
          else
            Some(c.(nextDispatchAt := Some(if delay.value > 0 then CeilSecond(receivedAt + delay.value) else receivedAt + delay.value)))
        else
          Some(c.(replacements := a.replacements + [hash],
                  nextDispatchAt := Some(CeilSecond(receivedAt + 1_000_000_000))))
  }

  /**
   * What a receipt leaves behind: its identifier and its time, rounded up to a second, and exactly the progress its
   * RPC stands for. It is refused only when malformed, or when the cadence of a block still to come is.
   */
  lemma ReceiptsAreStamped(a: Reservation, verb: Verb, id: Id, hash: string, receivedAt: int, delay: Option<int>)
    ensures AccountReceipt(a, verb, id, hash, receivedAt, delay).Some? <==>
      verb == Invalidate || verb == Reconsider ||
      (verb == Generate && HashValid(hash) && (a.kind.Generation? && a.blocks + 1 < a.kind.count ==> delay.Some?))
    ensures AccountReceipt(a, verb, id, hash, receivedAt, delay).Some? ==>
      var b := AccountReceipt(a, verb, id, hash, receivedAt, delay).value;
      && b.lastDispatch == Some(id)
      && b.lastCompletedAt == Some((receivedAt + 999_999_999) / 1_000_000_000 * 1_000_000_000)
      && b.blocks == a.blocks + (if verb == Generate then 1 else 0)
      && b.replacements == a.replacements + (if verb == Generate && a.kind.Reorganization? then [hash] else [])
      && b.invalidationAck == (a.invalidationAck || verb == Invalidate) && b.cleanupAck == (a.cleanupAck || verb == Reconsider)
      && b.stopReason == a.stopReason && b.effectUncertain == a.effectUncertain && b.cleanupUnsafe == a.cleanupUnsafe
  {
    assert a.replacements + [] == a.replacements;
  }

  /** stopAction and the stop writes of a step: the first reason stays, unsafety only accumulates. */
  function Stop(a: Reservation, reason: StopReason, uncertain: bool, unsafe: bool): (b: Reservation)
  {
    a.(stopReason := if a.stopReason == Running then reason else a.stopReason,
       effectUncertain := a.effectUncertain || uncertain,
       cleanupUnsafe := a.cleanupUnsafe || unsafe)
  }

  /** The last verified replacement header, or the fork parent before any is. */
  function Tip(a: Reservation): (p: Option<ChainPoint>)
  {
    if a.accepted.Some? then a.accepted else a.fork
  }

  datatype Verification = Refused | Unchanged | Accepted(next: Reservation)

  /** verifyReplacement: consume one known receipt as a contiguous header of greater work. */
  function VerifyReplacement(index: BlockIndex, a: Reservation): (v: Verification)
  {
    if a.fork.None? then Refused
    else
      var previous := Tip(a).value;
      var verified := previous.height - a.fork.value.height;
      if verified < 0 || verified > a.blocks || |a.replacements| != a.blocks then Refused
      else if verified == a.blocks then Unchanged
      else
        match Header(index, a.replacements[verified])
        case None => Refused
        case Some(h) =>
          if h.height == previous.height + 1 && h.previous == previous.hash && TextLess(previous.work, h.work)
          then Accepted(a.(accepted := Some(h)))
          else Refused
  }

  /** The last step of a reorganization; `positions` are the canonical hashes Core reports above the fork. */
  function Finish(index: BlockIndex, a: Reservation, positions: seq<string>, tip: ChainPoint): (r: Option<Reservation>)
  {
    if Settling(index, a) &&
       a.blocks == a.kind.depth + 1 && a.accepted.Some? &&
       TextLess(a.original.value.work, a.accepted.value.work) &&
       positions == a.replacements && Header(index, tip.hash) == Some(tip) &&
       TextLess(a.original.value.work, tip.work)
    then Some(a.(final := Some(tip)))
    else None
  }

  /** The reservation is compensated, running and fully verified, so only the closing checks are left. */
  predicate Settling(index: BlockIndex, a: Reservation)
  {
    && a.kind.Reorganization? && a.final.None? && a.invalidationAck && a.cleanupAck && a.stopReason == Running
    && !a.effectUncertain && VerifyReplacement(index, a).Unchanged? && a.original.Some?
  }

  /** The fields of a held reservation that its receipts, checks and stops change in place. */
  class Held {
    const before: Reservation
    var blocks: int
    var lastDispatch: Option<Id>
    var lastCompletedAt: Option<int>
    var nextDispatchAt: Option<int>
    var invalidationAck: bool
    var cleanupAck: bool
    var replacements: seq<string>
    var accepted: Option<ChainPoint>
    var final: Option<ChainPoint>
    var stopReason: StopReason
    var effectUncertain: bool
    var cleanupUnsafe: bool

    function View(): (a: Reservation)
      reads this
    {
      before.(blocks := blocks, lastDispatch := lastDispatch, lastCompletedAt := lastCompletedAt,
              nextDispatchAt := nextDispatchAt, invalidationAck := invalidationAck, cleanupAck := cleanupAck,
              replacements := replacements, accepted := accepted, final := final, stopReason := stopReason,
              effectUncertain := effectUncertain, cleanupUnsafe := cleanupUnsafe)
    }

    constructor (a: Reservation)
      ensures View() == a
    {
      before := a;
      blocks, lastDispatch, lastCompletedAt, nextDispatchAt := a.blocks, a.lastDispatch, a.lastCompletedAt, a.nextDispatchAt;
      invalidationAck, cleanupAck, replacements := a.invalidationAck, a.cleanupAck, a.replacements;
      accepted, final, stopReason := a.accepted, a.final, a.stopReason;
      effectUncertain, cleanupUnsafe := a.effectUncertain, a.cleanupUnsafe;
    }

    /** accountActionReceipt; on an error nothing is written, whatever was already changed here. */
    method Account(verb: Verb, id: Id, hash: string, receivedAt: int, delay: Option<int>) returns (ok: bool)
      modifies this
      ensures ok <==> AccountReceipt(old(View()), verb, id, hash, receivedAt, delay).Some?
      ensures ok ==> Some(View()) == AccountReceipt(old(View()), verb, id, hash, receivedAt, delay)
    {
      lastDispatch, lastCompletedAt := Some(id), Some(CeilSecond(receivedAt));
      match verb {
        case Generate =>
          if !HashValid(hash) {
            return false;
          }
          blocks := blocks + 1;
          var wait := 1_000_000_000;
          if before.kind.Generation? {
            if blocks >= before.kind.count {
              nextDispatchAt := None;
              return true;
            }
            if delay.None? {
              return false;
            }
            wait := delay.value;
          } else {
            replacements := replacements + [hash];
          }
          var due := receivedAt + wait;
          if wait > 0 {
            due := CeilSecond(due);
          }
          nextDispatchAt := Some(due);
          return true;
        case Invalidate =>
          invalidationAck := true;
          return true;
        case Reconsider =>
          cleanupAck := true;
          return true;
        case Wallet =>
          return false;
      }
    }

    method KeepReason(reason: StopReason)
      modifies this`stopReason
      ensures View() == old(View()).(stopReason := if old(stopReason) == Running then reason else old(stopReason))
    {
      if stopReason == Running {
        stopReason := reason;
      }
    }

    method Doubt(uncertain: bool, unsafe: bool)
      modifies this`effectUncertain, this`cleanupUnsafe
      ensures View() ==
        old(View()).(effectUncertain := old(effectUncertain) || uncertain, cleanupUnsafe := old(cleanupUnsafe) || unsafe)
    {
      effectUncertain := effectUncertain || uncertain;
      cleanupUnsafe := cleanupUnsafe || unsafe;
    }

    /** stopAction and the stop writes of a step. */
    method Halt(reason: StopReason, uncertain: bool, unsafe: bool)
      modifies this`stopReason, this`effectUncertain, this`cleanupUnsafe
      ensures View() == Stop(old(View()), reason, uncertain, unsafe)
    {
      KeepReason(reason);
      Doubt(uncertain, unsafe);
    }

    /** verifyReplacement: one known receipt becomes the accepted header, or the step is refused. */
    method Verify(index: BlockIndex) returns (moved: bool, refused: bool)
      modifies this`accepted
      ensures refused <==> VerifyReplacement(index, old(View())).Refused?
      ensures moved <==> VerifyReplacement(index, old(View())).Accepted?
      ensures View() == if moved then VerifyReplacement(index, old(View())).next else old(View())
    {
      if before.fork.None? {
        return false, true;
      }
      var previous := before.fork.value;
      if accepted.Some? {
        previous := accepted.value;
      }
      var verified := previous.height - before.fork.value.height;
      if verified < 0 || verified > blocks || |replacements| != blocks {
        return false, true;
      }
      if verified == blocks {
        return false, false;
      }
      var header := Header(index, replacements[verified]);
      if header.None? || header.value.height != previous.height + 1 || header.value.previous != previous.hash ||
         !TextLess(previous.work, header.value.work) {
        return false, true;
      }
      accepted := header;
      return true, false;
    }

    /** The closing checks of stepReorganization; `positions` are Core's hashes above the fork, one by one. */
    method Settle(index: BlockIndex, positions: seq<string>, tip: ChainPoint) returns (stop: Option<StopReason>)
      requires Settling(index, View()) && |positions| == |replacements| && Header(index, tip.hash) == Some(tip)
      modifies this`final, this`stopReason, this`effectUncertain, this`cleanupUnsafe
      ensures stop.None? <==> Finish(index, old(View()), positions, tip).Some?
      ensures stop.None? ==> Some(View()) == Finish(index, old(View()), positions, tip)
      ensures stop.Some? ==> View() == Stop(old(View()), stop.value, false, true)
      ensures stop == Some(NotCanonical) ==> positions != replacements
    {
      if blocks != before.kind.depth + 1 || accepted.None? || !TextLess(before.original.value.work, accepted.value.work) {
        Halt(WorkInsufficient, false, true);
        return Some(WorkInsufficient);
      }
      var i := 0;
      while i < |replacements|
        invariant 0 <= i <= |replacements| && positions[..i] == replacements[..i]
        invariant View() == old(View())
      {
        if positions[i] != replacements[i] {
          Halt(NotCanonical, false, true);
          return Some(NotCanonical);
        }
        i := i + 1;
      }
      if !TextLess(before.original.value.work, tip.work) {
        Halt(WorkInsufficient, false, true);
        return Some(WorkInsufficient);
      }
      final := Some(tip);
      return None;
    }
  }

  // ---------------------------------------------------------------------------
  // What every reservation keeps

  /** Follow replacement hashes one by one from the fork parent. */
  function Linked(index: BlockIndex, base: ChainPoint, hashes: seq<string>): (r: Option<ChainPoint>)
  {
    if hashes == [] then Some(base)
    else
      match Linked(index, base, hashes[..|hashes| - 1])
      case None => None
      case Some(p) =>
        match Header(index, hashes[|hashes| - 1])
        case None => None
        case Some(h) =>
          if h.height == p.height + 1 && h.previous == p.hash && TextLess(p.work, h.work) then Some(h) else None
  }

  function Verified(a: Reservation): (n: int)
    requires a.fork.Some?
  {
    Tip(a).value.height - a.fork.value.height
  }

  ghost predicate SuffixCaptured(index: BlockIndex, a: Reservation)
  {
    a.kind.Reorganization? ==>
      && 1 <= a.kind.depth <= 6
      && a.original.Some? && a.fork.Some? && HashValid(a.original.value.work)
      && Capture(index, a.kind.depth, a.original.value) == Some(Captured(a.fork.value, a.invalidated))
  }

  ghost predicate ReplacementLinked(index: BlockIndex, a: Reservation)
    requires a.kind.Reorganization? ==> a.fork.Some?
  {
    a.kind.Reorganization? ==>
      && |a.replacements| == a.blocks
      && 0 <= Verified(a) <= a.blocks
      && Linked(index, a.fork.value, a.replacements[..Verified(a)]) == Tip(a)
  }

  ghost predicate FinalJustified(a: Reservation)
  {
    a.kind.Reorganization? && a.final.Some? ==>
      && a.invalidationAck && a.cleanupAck && a.blocks == a.kind.depth + 1
      && a.original.Some? && a.fork.Some? && a.accepted.Some? && Verified(a) == a.blocks
      && TextLess(a.original.value.work, a.accepted.value.work)
  }

  ghost predicate ChainSound(index: BlockIndex, a: Reservation)
  {
    SuffixCaptured(index, a) && ReplacementLinked(index, a) && FinalJustified(a)
  }

  lemma {:induction false} LinkedHeight(index: BlockIndex, base: ChainPoint, hashes: seq<string>)
    requires Linked(index, base, hashes).Some?
    ensures Linked(index, base, hashes).value.height == base.height + |hashes|
  {
    if hashes != [] {
      LinkedHeight(index, base, hashes[..|hashes| - 1]);
    }
  }

  lemma ReservedIsSound(index: BlockIndex, request: Uid, kind: Kind, admission: Admission, expiresAt: int, tip: Option<ChainPoint>)
    requires kind.Reorganization? ==> tip.Some? && HashValid(tip.value.work) && Capture(index, kind.depth, tip.value).Some?
    ensures ChainSound(index, Reserved(request, kind, admission, expiresAt, tip,
              if kind.Reorganization? then Capture(index, kind.depth, tip.value) else None))
  {
    var captured := if kind.Reorganization? then Capture(index, kind.depth, tip.value) else None;
    var a := Reserved(request, kind, admission, expiresAt, tip, captured);
    if kind.Reorganization? {
      assert a.replacements[..0] == [];
    }
  }

  /** A replacement may be accounted as long as the final chain is not yet set. */
  lemma AccountKeepsSound(index: BlockIndex, a: Reservation, verb: Verb, id: Id, hash: string, receivedAt: int, delay: Option<int>)
    requires ChainSound(index, a) && AccountReceipt(a, verb, id, hash, receivedAt, delay).Some?
    requires a.kind.Reorganization? && a.final.Some? ==> verb != Generate
    ensures ChainSound(index, AccountReceipt(a, verb, id, hash, receivedAt, delay).value)
  {
    var b := AccountReceipt(a, verb, id, hash, receivedAt, delay).value;
    if a.kind.Reorganization? && verb == Generate {
      assert b.replacements[..Verified(a)] == a.replacements[..Verified(a)];
    }
  }

  lemma VerifyKeepsSound(index: BlockIndex, a: Reservation)
    requires ChainSound(index, a) && VerifyReplacement(index, a).Accepted? && a.final.None?
    requires a.kind.Reorganization?
    ensures ChainSound(index, VerifyReplacement(index, a).next)
    ensures VerifyReplacement(index, a).next == a.(accepted := VerifyReplacement(index, a).next.accepted)
  {
    var b := VerifyReplacement(index, a).next;
    var n := Verified(a);
    assert b.replacements[..n + 1][..n] == a.replacements[..n];
    assert b.replacements[..n + 1][n] == a.replacements[n];
  }

  lemma FinishKeepsSound(index: BlockIndex, a: Reservation, positions: seq<string>, tip: ChainPoint)
    requires ChainSound(index, a) && Finish(index, a, positions, tip).Some?
    ensures ChainSound(index, Finish(index, a, positions, tip).value)
  {
  }

  /** A replacement header is accepted exactly when it is the next block of more work, in numbers. */
  lemma VerifyIsExact(index: BlockIndex, a: Reservation, h: ChainPoint)
    requires ChainSound(index, a) && a.kind.Reorganization? && Verified(a) < a.blocks
    ensures VerifyReplacement(index, a) == Accepted(a.(accepted := Some(h))) <==>
      && Header(index, a.replacements[Verified(a)]) == Some(h)
      && h.height == Tip(a).value.height + 1 && h.previous == Tip(a).value.hash
      && HashValid(Tip(a).value.work) && Value(Tip(a).value.work) < Value(h.work)
    ensures !VerifyReplacement(index, a).Unchanged?
  {
    TipWorks(index, a);
    if Header(index, a.replacements[Verified(a)]) == Some(h) {
      TextOrderIsNumeric(Tip(a).value.work, h.work);
    }
  }

  /** The last verified point carries a well-formed amount of work. */
  lemma TipWorks(index: BlockIndex, a: Reservation)
    requires ChainSound(index, a) && a.kind.Reorganization?
    ensures HashValid(Tip(a).value.work)
  {
    AncestorIsLower(index, a.original.value, a.kind.depth);
    var done := a.replacements[..Verified(a)];
    if done != [] {
      LinkedAt(index, a.fork.value, done, |done| - 1);
    }
  }

  /**
   * The final chain is set exactly when the whole replacement is generated, verified, compensated and canonical, and
   * both its last header and Core's tip carry numerically more work than the original chain.
   */
  lemma FinishIsExact(index: BlockIndex, a: Reservation, positions: seq<string>, tip: ChainPoint)
    requires ChainSound(index, a) && a.kind.Reorganization? && Header(index, tip.hash) == Some(tip)
    ensures HashValid(Tip(a).value.work) && HashValid(a.original.value.work) && HashValid(tip.work)
    ensures Finish(index, a, positions, tip) == Some(a.(final := Some(tip))) <==>
      && a.final.None? && a.invalidationAck && a.cleanupAck && a.stopReason == Running && !a.effectUncertain
      && Verified(a) == a.blocks == a.kind.depth + 1
      && Value(a.original.value.work) < Value(Tip(a).value.work)
      && positions == a.replacements
      && Value(a.original.value.work) < Value(tip.work)
    ensures Finish(index, a, positions, tip).Some? ==> Finish(index, a, positions, tip) == Some(a.(final := Some(tip)))
  {
    TipWorks(index, a);
    TextOrderIsNumeric(a.original.value.work, Tip(a).value.work);
    TextOrderIsNumeric(a.original.value.work, tip.work);
  }

  lemma StopKeepsSound(index: BlockIndex, a: Reservation, reason: StopReason, uncertain: bool, unsafe: bool)
    requires ChainSound(index, a)
    ensures ChainSound(index, Stop(a, reason, uncertain, unsafe))
  {
  }

  lemma {:induction false} LinkedAt(index: BlockIndex, base: ChainPoint, hashes: seq<string>, i: nat)
    requires i < |hashes| && Linked(index, base, hashes).Some?
    ensures Header(index, hashes[i]).Some?
    ensures var h := Header(index, hashes[i]).value;
      h.height == base.height + i + 1 &&
      h.previous == (if i == 0 then base.hash else hashes[i - 1])
    ensures i + 1 == |hashes| ==> Linked(index, base, hashes) == Header(index, hashes[i])
  {
    var front := hashes[..|hashes| - 1];
    LinkedHeight(index, base, front);
    if i + 1 < |hashes| {
      LinkedAt(index, base, front, i);
    } else if 0 < i {
      LinkedAt(index, base, front, i - 1);
    }
  }

  /**
   * What a set final chain proves: Depth+1 replacement headers hang one by one from the fork parent, the
   * fork parent is exactly Depth below the original tip and the invalidated block is its child on the
   * original chain, and the last replacement is one block above the original tip with numerically more
   * work.
   */
  lemma FinalChainIsTheReplacement(index: BlockIndex, a: Reservation)
    requires ChainSound(index, a) && a.kind.Reorganization? && a.final.Some?
    ensures |a.replacements| == a.kind.depth + 1
    ensures forall i :: 0 <= i < |a.replacements| ==>
      && Header(index, a.replacements[i]).Some?
      && Header(index, a.replacements[i]).value.height == a.fork.value.height + i + 1
      && Header(index, a.replacements[i]).value.previous == (if i == 0 then a.fork.value.hash else a.replacements[i - 1])
    ensures a.fork.value.height == a.original.value.height - a.kind.depth
    ensures Header(index, a.invalidated).Some? || a.invalidated == a.original.value.hash
    ensures a.kind.depth == 1 ==> a.invalidated == a.original.value.hash && a.original.value.previous == a.fork.value.hash
    ensures 1 < a.kind.depth ==> index(a.invalidated).previous == a.fork.value.hash && index(a.invalidated).height == a.fork.value.height + 1
    ensures a.accepted == Header(index, a.replacements[a.kind.depth])
    ensures a.accepted.value.height == a.original.value.height + 1
    ensures HashValid(a.accepted.value.work) && HashValid(a.original.value.work)
    ensures Value(a.original.value.work) < Value(a.accepted.value.work)
  {
    var n := a.kind.depth + 1;
    assert a.replacements[..n] == a.replacements;
    forall i | 0 <= i < |a.replacements|
      ensures Header(index, a.replacements[i]).Some?
      ensures Header(index, a.replacements[i]).value.height == a.fork.value.height + i + 1
      ensures Header(index, a.replacements[i]).value.previous == (if i == 0 then a.fork.value.hash else a.replacements[i - 1])
    {
      LinkedAt(index, a.fork.value, a.replacements, i);
    }
    LinkedAt(index, a.fork.value, a.replacements, a.kind.depth);
    AncestorIsLower(index, a.original.value, a.kind.depth);
    AncestorIsLower(index, a.original.value, a.kind.depth - 1);
    TextOrderIsNumeric(a.original.value.work, a.accepted.value.work);
  }
}
