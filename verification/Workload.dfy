/**
 * The workload driver: submissions in nonce order under a bound on how many are outstanding, inclusion observed in
 * batches that filter the outstanding list in place, and storage keys that never overlap between ordinals.
 */
module Workload {
  import opened Common

  const MAX_UINT64 := 0xffff_ffff_ffff_ffff
  const DEFAULT_OUTSTANDING := 100
  const KEYS_PER_CALL := 64

  /** Unsigned 64-bit addition. */
  function Add64(a: int, b: int): (r: int)
    ensures 0 <= r <= MAX_UINT64
    ensures 0 <= a + b <= MAX_UINT64 ==> r == a + b
  {
    (a + b) % (MAX_UINT64 + 1)
  }

  // ---------------------------------------------------------------------------
  // Filtering the outstanding list

  /** What one inclusion read said; an inclusion counts only once its evidence is written. */
  datatype Observation = ReadFailed | NotFound | Found(recorded: bool)

  predicate Settles(o: Observation)
  {
    o.Found? && o.recorded
  }

  /** Whether an observation ends the run after the batch. */
  predicate Breaks(o: Observation)
  {
    o.ReadFailed? || (o.Found? && !o.recorded)
  }

  /** The ordinals that stay outstanding, in order. */
  function Kept(items: seq<nat>, seen: seq<Observation>): (r: seq<nat>)
    requires |items| == |seen|
    ensures |r| <= |items|
  {
    if items == [] then []
    else
      var last := |items| - 1;
      Kept(items[..last], seen[..last]) + (if Settles(seen[last]) then [] else [items[last]])
  }

  /** The ordinals observed as included, in order. */
  function Dropped(items: seq<nat>, seen: seq<Observation>): (r: seq<nat>)
    requires |items| == |seen|
  {
    if items == [] then []
    else
      var last := |items| - 1;
      Dropped(items[..last], seen[..last]) + (if Settles(seen[last]) then [items[last]] else [])
  }

  /** Filtering neither loses nor repeats a transaction. */
  lemma {:induction false} FilterConserves(items: seq<nat>, seen: seq<Observation>)
    requires |items| == |seen|
    ensures multiset(Kept(items, seen)) + multiset(Dropped(items, seen)) == multiset(items)
  {
    if items != [] {
      var last := |items| - 1;
      var front, x := items[..last], items[last];
      FilterConserves(front, seen[..last]);
      assert items == front + [x];
      if Settles(seen[last]) {
        assert Kept(items, seen) == Kept(front, seen[..last]) + [];
        Move(Kept(front, seen[..last]), Dropped(front, seen[..last]), front, x);
      } else {
        assert Dropped(items, seen) == Dropped(front, seen[..last]) + [];
        Move(Dropped(front, seen[..last]), Kept(front, seen[..last]), front, x);
      }
    }
  }

  lemma Move(a: seq<nat>, b: seq<nat>, whole: seq<nat>, x: nat)
    requires multiset(a) + multiset(b) == multiset(whole)
    ensures multiset(a + []) + multiset(b + [x]) == multiset(whole + [x])
  {
    assert a + [] == a;
  }

  /** So what is outstanding and what is included still make up what was attempted. */
  lemma SettleConserves(items: seq<nat>, seen: seq<Observation>, included: seq<nat>, whole: seq<nat>)
    requires |items| == |seen| && multiset(items) + multiset(included) == multiset(whole)
    ensures multiset(Kept(items, seen)) + multiset(included + Dropped(items, seen)) == multiset(whole)
  {
    FilterConserves(items, seen);
  }

  lemma {:induction false} FilterLengths(items: seq<nat>, seen: seq<Observation>)
    requires |items| == |seen|
    ensures |Kept(items, seen)| + |Dropped(items, seen)| == |items|
  {
    if items != [] {
      FilterLengths(items[..|items| - 1], seen[..|items| - 1]);
    }
  }

  /** retained := pending[:0] and the loop that appends to it, over the same storage. */
  method FilterInPlace(pending: array<nat>, size: nat, seen: seq<Observation>)
    returns (kept: nat, ghost settled: seq<nat>, broken: bool)
    requires size <= pending.Length && |seen| == size
    modifies pending
    ensures kept <= size && pending[..kept] == Kept(old(pending[..size]), seen)
    ensures settled == Dropped(old(pending[..size]), seen)
    ensures broken <==> exists i :: 0 <= i < size && Breaks(seen[i])
  {
    kept, settled, broken := 0, [], false;
    ghost var items := pending[..size];
    var i := 0;
    while i < size
      invariant 0 <= kept <= i <= size
      invariant pending[i..size] == items[i..]
      invariant pending[..kept] == Kept(items[..i], seen[..i])
      invariant settled == Dropped(items[..i], seen[..i])
      invariant broken <==> exists k :: 0 <= k < i && Breaks(seen[k])
    {
      var item := pending[i];
      assert item == pending[i..size][0] == items[i];
      assert items[..i + 1][..i] == items[..i] && seen[..i + 1][..i] == seen[..i];
      assert pending[i + 1..size] == pending[i..size][1..];
      if Breaks(seen[i]) {
        broken := true;
      }
      if Settles(seen[i]) {
        settled := settled + [item];
      } else {
        pending[kept] := item;
        assert pending[..kept + 1] == pending[..kept] + [item];
        kept := kept + 1;
      }
      i := i + 1;
    }
    assert items[..i] == items && seen[..i] == seen;
  }

  // ---------------------------------------------------------------------------
  // The submission loop

  /** The first n ordinals. */
  function Ordinals(n: nat): (r: seq<nat>)
    ensures |r| == n && forall i :: 0 <= i < n ==> r[i] == i
  {
    seq(n, i => i)
  }

  /** The result array of one batch, by position in the outstanding list. */
  function Observed(batch: nat -> Observation, n: nat): (r: seq<Observation>)
    ensures |r| == n && forall i :: 0 <= i < n ==> r[i] == batch(i)
  {
    seq(n, i requires i >= 0 => batch(i))
  }

  /** What one turn of the loop meets. */
  datatype Turn = Turn(
    cancelled: bool,
    open: bool,
    pollDue: bool,
    sendDue: bool,
    batch: nat -> Observation,
    built: bool,
    authorized: bool,
    alive: bool,
    stillOpen: bool,
    accepted: bool,
    recorded: bool)

  /** Nothing keeps this turn from sending. */
  predicate Clear(t: Turn)
  {
    !t.cancelled && t.open && !t.pollDue && t.sendDue && t.built && t.authorized && t.alive && t.stillOpen && t.accepted && t.recorded
  }

  class Driver {
    const nonce: nat
    const count: nat
    const limit: nat
    const pending: array<nat>
    var size: nat
    var attempted: nat
    ghost var included: seq<nat>
    var includedCount: nat
    ghost var sent: seq<int>

    /** Everything attempted is outstanding or included, once; nonces went out in order without a gap. */
    ghost predicate Valid()
      reads this, pending
    {
      && pending.Length == limit && size <= limit
      && 1 <= count && nonce + (count - 1) <= MAX_UINT64 && attempted <= count
      && includedCount == |included| && attempted == includedCount + size
      && multiset(pending[..size]) + multiset(included) == multiset(Ordinals(attempted))
      && |sent| == attempted && forall k :: 0 <= k < attempted ==> sent[k] == nonce + k
    }

    constructor (nonce: nat, count: nat, maxOutstanding: nat)
      requires 1 <= count && nonce <= MAX_UINT64 - (count - 1)
      ensures Valid() && fresh(pending) && attempted == 0
      ensures this.nonce == nonce && this.count == count
      ensures limit == if maxOutstanding == 0 then DEFAULT_OUTSTANDING else maxOutstanding
    {
      this.nonce, this.count := nonce, count;
      limit := if maxOutstanding == 0 then DEFAULT_OUTSTANDING else maxOutstanding;
      pending := new nat[if maxOutstanding == 0 then DEFAULT_OUTSTANDING else maxOutstanding];
      size, attempted, included, includedCount, sent := 0, 0, [], 0, [];
    }

    /** A batch of inclusion reads. */
    method Poll(batch: nat -> Observation) returns (broken: bool)
      requires Valid()
      modifies this`size, this`included, this`includedCount, pending
      ensures Valid() && size <= old(size)
      ensures pending[..size] == Kept(old(pending[..size]), Observed(batch, old(size)))
      ensures included == old(included) + Dropped(old(pending[..size]), Observed(batch, old(size)))
      ensures broken <==> exists i :: 0 <= i < old(size) && Breaks(batch(i))
    {
      var seen := Observed(batch, size);
      ghost var items := pending[..size];
      SettleConserves(items, seen, included, Ordinals(attempted));
      FilterLengths(items, seen);
      var kept, settled, failed := FilterInPlace(pending, size, seen);
      included := included + settled;
      includedCount := includedCount + (size - kept);
      size := kept;
      return failed;
    }

    /** The append and the send; the attempt counts before its outcome is known. */
    method Submit()
      requires Valid() && size < limit && attempted < count
      modifies this`size, this`attempted, this`sent, pending
      ensures Valid() && attempted == old(attempted) + 1 && size == old(size) + 1
      ensures pending[..size] == old(pending[..size]) + [old(attempted)]
      ensures sent == old(sent) + [nonce + old(attempted)]
    {
      var current := Add64(nonce, attempted);
      ghost var items := pending[..size];
      pending[size] := attempted;
      assert pending[..size + 1] == items + [attempted];
      assert Ordinals(attempted + 1) == Ordinals(attempted) + [attempted];
      size := size + 1;
      sent := sent + [current];
      attempted := attempted + 1;
    }

    /** execute, until it returns or the caller's deadline ends it. */
    method Execute(turns: seq<Turn>) returns (completed: bool)
      requires Valid()
      modifies this, pending
      ensures Valid() && old(attempted) <= attempted && old(sent) <= sent && old(included) <= included
      ensures completed ==> size == 0 && includedCount == attempted
      ensures completed && (forall i :: 0 <= i < |turns| ==> turns[i].open) ==> attempted == count
      ensures (forall i :: 0 <= i < |turns| ==> Clear(turns[i])) && |turns| <= limit - old(size) && |turns| <= count - old(attempted) ==>
        attempted == old(attempted) + |turns| && size == old(size) + |turns|
    {
      var i := 0;
      while i < |turns|
        invariant 0 <= i <= |turns| && Valid()
        invariant old(attempted) <= attempted && old(sent) <= sent && old(included) <= included
        invariant (forall k :: 0 <= k < |turns| ==> Clear(turns[k])) && |turns| <= limit - old(size) && |turns| <= count - old(attempted) ==>
          attempted == old(attempted) + i && size == old(size) + i
      {
        var t := turns[i];
        i := i + 1;
        if t.cancelled {
          return false;
        }
        var canSend := attempted < count && t.open;
        if !canSend && size == 0 {
          return true;
        }
        if size > 0 && t.pollDue {
          var broken := Poll(t.batch);
          if broken {
            return false;
          }
        } else if canSend && size < limit && t.sendDue {
          if !t.built || !t.authorized || !t.alive {
            return false;
          }
          if t.stillOpen {
            Submit();
            if !t.accepted || !t.recorded {
              return false;
            }
          }
        }
      }
      return false;
    }
  }

  /** Starting fails exactly when the nonce sequence would wrap. */
  method Start(nonce: nat, count: nat, maxOutstanding: nat) returns (r: Driver?)
    requires 1 <= count && nonce <= MAX_UINT64
    ensures r == null <==> MAX_UINT64 < nonce + (count - 1)
    ensures r != null ==> fresh(r) && fresh(r.pending) && r.Valid() && r.attempted == 0
  {
    if nonce > MAX_UINT64 - (count - 1) {
      return null;
    }
    r := new Driver(nonce, count, maxOutstanding);
  }

  // ---------------------------------------------------------------------------
  // Call shapes and storage keys

  datatype Range = Range(min: int, max: int)

  datatype Shape = Shape(writes: int, readCount: int, payload: int)

  datatype Variation = Variation(writes: Option<Range>, readCount: Option<Range>, payload: Option<Range>)

  const MOST_WRITES := 64
  const MOST_READS := 1024
  const MOST_PAYLOAD := 4096

  predicate RangeValid(r: Option<Range>, most: int)
  {
    r.Some? ==> 0 <= r.value.min <= r.value.max <= most
  }

  /** The bounds of validateSubmitRequest and validateVariation. */
  predicate ShapesValid(fixed: Shape, v: Variation)
  {
    && 0 <= fixed.writes <= MOST_WRITES && 0 <= fixed.readCount <= MOST_READS && 0 <= fixed.payload <= MOST_PAYLOAD
    && RangeValid(v.writes, MOST_WRITES) && RangeValid(v.readCount, MOST_READS) && RangeValid(v.payload, MOST_PAYLOAD)
  }

  /** One field drawn from its range by an arbitrary digest, or left as it was. */
  function Sample(fixed: int, range: Option<Range>, digest: nat): (r: int)
    requires range.Some? ==> range.value.min <= range.value.max
    ensures range.None? ==> r == fixed
    ensures range.Some? ==> range.value.min <= r <= range.value.max
  {
    match range
    case None => fixed
    case Some(x) => x.min + digest % (x.max - x.min + 1)
  }

  /** A field without a range is unchanged; one with a range lies in it, as far up as its own digest reaches round it. */
  predicate DrawnFrom(value: int, fixed: int, range: Option<Range>, digest: nat)
  {
    match range
    case None => value == fixed
    case Some(r) => r.min <= value <= r.max && value - r.min == digest % (r.max - r.min + 1)
  }

  function Varied(fixed: Shape, v: Variation, digest: string -> nat): (s: Shape)
    requires ShapesValid(fixed, v)
    ensures 0 <= s.writes <= MOST_WRITES && 0 <= s.readCount <= MOST_READS && 0 <= s.payload <= MOST_PAYLOAD
    ensures DrawnFrom(s.writes, fixed.writes, v.writes, digest("writes"))
    ensures DrawnFrom(s.readCount, fixed.readCount, v.readCount, digest("reads"))
    ensures DrawnFrom(s.payload, fixed.payload, v.payload, digest("payloadBytes"))
  {
    Shape(Sample(fixed.writes, v.writes, digest("writes")),
          Sample(fixed.readCount, v.readCount, digest("reads")),
          Sample(fixed.payload, v.payload, digest("payloadBytes")))
  }

  /** validateControls' bound on the key space. */
  predicate KeysFit(keyBase: int, count: int)
  {
    0 <= keyBase && 0 <= count && keyBase <= MAX_UINT64 - count * KEYS_PER_CALL
  }

  /** The storage key of one write, as it is computed. */
  function Key(keyBase: int, ordinal: nat, index: nat): (k: int)
  {
    Add64(keyBase, ordinal * KEYS_PER_CALL + index)
  }

  /** loadCall's write keys. */
  method WriteKeys(keyBase: int, ordinal: nat, writes: nat) returns (keys: seq<int>)
    ensures |keys| == writes && forall i :: 0 <= i < writes ==> keys[i] == Key(keyBase, ordinal, i)
  {
    keys := [];
    while |keys| < writes
      invariant |keys| <= writes && forall i :: 0 <= i < |keys| ==> keys[i] == Key(keyBase, ordinal, i)
    {
      keys := keys + [Add64(keyBase, ordinal * KEYS_PER_CALL + |keys|)];
    }
  }

  /** loadCall's read keys: the call's own writes in turn, or its first key when it writes nothing. */
  method ReadKeys(keyBase: int, count: nat, ordinal: nat, writes: nat, readCount: nat) returns (keys: seq<int>)
    requires KeysFit(keyBase, count) && ordinal < count && writes <= MOST_WRITES
    ensures |keys| == readCount
    ensures forall i :: 0 <= i < readCount ==> keys[i] == Key(keyBase, ordinal, if writes == 0 then 0 else i % writes)
  {
    keys := [];
    var base := Add64(keyBase, ordinal * KEYS_PER_CALL);
    KeysDoNotWrap(keyBase, count, ordinal, 0);
    while |keys| < readCount
      invariant |keys| <= readCount
      invariant forall i :: 0 <= i < |keys| ==> keys[i] == Key(keyBase, ordinal, if writes == 0 then 0 else i % writes)
    {
      var key := base;
      if writes > 0 {
        KeysDoNotWrap(keyBase, count, ordinal, |keys| % writes);
        key := Add64(key, |keys| % writes);
      }
      keys := keys + [key];
    }
  }

  /** A key within its call's 64 is the plain sum. */
  lemma KeysDoNotWrap(keyBase: int, count: nat, ordinal: nat, index: nat)
    requires KeysFit(keyBase, count) && ordinal < count && index < KEYS_PER_CALL
    ensures Key(keyBase, ordinal, index) == keyBase + ordinal * KEYS_PER_CALL + index <= MAX_UINT64
  {
    assert (ordinal + 1) * KEYS_PER_CALL <= count * KEYS_PER_CALL;
  }

  /** Calls of different ordinals never touch the same key, whatever shapes were drawn for them. */
  lemma OrdinalsAreDisjoint(
    keyBase: int, count: nat, fixed: Shape, v: Variation, digests: nat -> (string -> nat),
    a: nat, i: nat, b: nat, j: nat)
    requires KeysFit(keyBase, count) && ShapesValid(fixed, v) && a < count && b < count && a != b
    requires i < Varied(fixed, v, digests(a)).writes && j < Varied(fixed, v, digests(b)).writes
    ensures Key(keyBase, a, i) != Key(keyBase, b, j)
  {
    KeysDoNotWrap(keyBase, count, a, i);
    KeysDoNotWrap(keyBase, count, b, j);
  }

  /** Within a call different writes have different keys. */
  lemma WritesAreDistinct(keyBase: int, count: nat, ordinal: nat, i: nat, j: nat)
    requires KeysFit(keyBase, count) && ordinal < count && i < j < KEYS_PER_CALL
    ensures Key(keyBase, ordinal, i) != Key(keyBase, ordinal, j)
  {
    KeysDoNotWrap(keyBase, count, ordinal, i);
    KeysDoNotWrap(keyBase, count, ordinal, j);
  }
}
