/**
 * c32check addresses: a version digit and the base-32 text of a 20-byte hash with its 4-byte checksum.
 * The checksum is an arbitrary function of the version and the hash.
 */
module Address {
  import opened Common
  import opened Radix

  type Byte = x: nat | x < 256

  /** Go strings are byte sequences. */
  type Text = seq<Byte>

  datatype Word = Word(a: Byte, b: Byte, c: Byte, d: Byte)

  type Checksum = seq<Byte> -> Word

  const HASH_BYTES := 20
  const PAYLOAD_BYTES := 24
  const LONGEST := 41

  /** 0-9, then the upper-case letters without I, L, O and U. */
  const C32: Text := [
    48, 49, 50, 51, 52, 53, 54, 55, 56, 57, 65, 66, 67, 68, 69, 70,
    71, 72, 74, 75, 77, 78, 80, 81, 82, 83, 84, 86, 87, 88, 89, 90]

  const LETTER_S: Byte := 83

  function Sum(sum: Checksum, version: Byte, hash: seq<Byte>): (r: seq<Byte>)
    ensures |r| == 4
  {
    var w := sum([version] + hash);
    [w.a, w.b, w.c, w.d]
  }

  // ---------------------------------------------------------------------------
  // Text of a byte string in an alphabet

  function LeadingZeros(b: seq<Byte>): (n: nat)
    ensures n <= |b|
  {
    if b == [] || b[0] != 0 then 0 else 1 + LeadingZeros(b[1..])
  }

  function Spell(ds: Digits, alphabet: Text): (t: Text)
    requires forall i :: 0 <= i < |ds| ==> ds[i] < |alphabet|
    ensures |t| == |ds| && forall i :: 0 <= i < |ds| ==> t[i] == alphabet[ds[i]]
  {
    seq(|ds|, i requires 0 <= i < |ds| => alphabet[ds[i]])
  }

  /** The digits of the number the bytes denote, behind one zero for each leading zero byte. */
  function TextDigits(b: seq<Byte>, radix: nat): (ds: Digits)
    requires 2 <= radix
    ensures InBase(ds, radix)
  {
    ValueOfMinimal(Value(b, 256), radix);
    Zeros(LeadingZeros(b)) + Minimal(Value(b, 256), radix)
  }

  function Encode(b: seq<Byte>, alphabet: Text): (t: Text)
    requires 2 <= |alphabet|
  {
    Spell(TextDigits(b, |alphabet|), alphabet)
  }

  function Reversed<T>(s: seq<T>): (r: seq<T>)
    ensures |r| == |s| && forall i :: 0 <= i < |s| ==> r[i] == s[|s| - 1 - i]
  {
    seq(|s|, i requires 0 <= i < |s| => s[|s| - 1 - i])
  }

  method Reverse(a: array<Byte>)
    modifies a
    ensures a[..] == Reversed(old(a[..]))
  {
    var i, j := 0, a.Length - 1;
    while i < j
      invariant 0 <= i <= a.Length && i + j == a.Length - 1
      invariant forall k :: 0 <= k < i || j < k < a.Length ==> a[k] == old(a[a.Length - 1 - k])
      invariant forall k :: i <= k <= j ==> a[k] == old(a[k])
    {
      a[i], a[j] := a[j], a[i];
      i, j := i + 1, j - 1;
    }
  }

  method QuoRem(n: nat, radix: nat) returns (q: nat, d: nat)
    requires 2 <= radix && 0 < n
    ensures q < n && d < radix && Minimal(n, radix) == Minimal(q, radix) + [d]
  {
    Shrinks(n, radix);
    Parts(n, radix);
    q, d := n / radix, n % radix;
  }

  /** A number's digits, lowest first. */
  function LowFirst(n: nat, radix: nat): (ds: Digits)
    requires 2 <= radix
    ensures InBase(ds, radix)
  {
    ValueOfMinimal(n, radix);
    Reversed(Minimal(n, radix))
  }

  /** The division loop: digits come out lowest first. */
  method Divide(number: nat, alphabet: Text) returns (out: Text)
    requires 2 <= |alphabet|
    ensures out == Spell(LowFirst(number, |alphabet|), alphabet)
  {
    var radix := |alphabet|;
    var n: nat := number;
    ghost var low: Digits := [];
    out := [];
    while 0 < n
      invariant InBase(low, radix) && out == Spell(low, alphabet)
      invariant Minimal(number, radix) == Minimal(n, radix) + Reversed(low)
      decreases n
    {
      var q, d := QuoRem(n, radix);
      assert Minimal(q, radix) + [d] + Reversed(low) == Minimal(q, radix) + Reversed(low + [d]);
      out := out + [alphabet[d]];
      low := low + [d];
      n := q;
    }
    assert LowFirst(number, radix) == low;
  }

  /** One zero letter for each leading zero byte. */
  method AppendZeros(b: seq<Byte>, digits: Text, zero: Byte) returns (out: Text)
    ensures |out| == |digits| + LeadingZeros(b) && digits == out[..|digits|]
    ensures forall k :: |digits| <= k < |out| ==> out[k] == zero
  {
    out := digits;
    var i := 0;
    assert b[0..] == b;
    while i < |b| && b[i] == 0
      invariant 0 <= i <= |b| && LeadingZeros(b) == i + LeadingZeros(b[i..])
      invariant |out| == |digits| + i && digits == out[..|digits|]
      invariant forall k :: |digits| <= k < |out| ==> out[k] == zero
    {
      assert b[i..][1..] == b[i + 1..];
      out := out + [zero];
      i := i + 1;
    }
  }

  /** encode: low digits first, zeros for leading zero bytes, then reversed in place. */
  method EncodeText(b: seq<Byte>, alphabet: Text) returns (t: Text)
    requires 2 <= |alphabet|
    ensures t == Encode(b, alphabet)
  {
    var digits := Divide(Value(b, 256), alphabet);
    ghost var low := LowFirst(Value(b, 256), |alphabet|);
    var out := AppendZeros(b, digits, alphabet[0]);
    var a := new Byte[|out|](k requires 0 <= k < |out| => out[k]);
    assert a[..] == out;
    Reverse(a);
    t := a[..];
    ReversedText(low, LeadingZeros(b), alphabet, out);
    assert Reversed(low) == Minimal(Value(b, 256), |alphabet|);
  }

  lemma ReversedText(low: Digits, zeros: nat, alphabet: Text, out: Text)
    requires 2 <= |alphabet| && InBase(low, |alphabet|)
    requires |out| == |low| + zeros && Spell(low, alphabet) == out[..|low|]
    requires forall k :: |low| <= k < |out| ==> out[k] == alphabet[0]
    ensures Reversed(out) == Spell(Zeros(zeros) + Reversed(low), alphabet)
  {
    forall k | 0 <= k < |out|
      ensures Reversed(out)[k] == alphabet[(Zeros(zeros) + Reversed(low))[k]]
    {
      var from := |out| - 1 - k;
      if from < |low| {
        assert out[from] == out[..|low|][from] == alphabet[low[from]];
      }
    }
  }

  // ---------------------------------------------------------------------------
  // Looking digits up

  /** strings.IndexByte: the first position, or -1. */
  function IndexByte(s: Text, c: Byte): (i: int)
    ensures -1 <= i < |s| && (i >= 0 ==> s[i] == c) && (i < 0 ==> c !in s)
  {
    if s == [] then -1
    else if s[0] == c then 0
    else
      var i := IndexByte(s[1..], c);
      if i < 0 then -1 else i + 1
  }

  lemma C32Ascends(i: nat, j: nat)
    requires i < j < |C32|
    ensures C32[i] < C32[j]
  {
    if i + 1 < j {
      C32Ascends(i, j - 1);
    }
    assert forall k :: 0 <= k < 31 ==> C32[k] < C32[k + 1];
  }

  lemma {:induction false} IndexOfLetter(d: nat)
    requires d < |C32|
    ensures IndexByte(C32, C32[d]) == d
  {
    var i := IndexByte(C32, C32[d]);
    if 0 <= i < d {
      C32Ascends(i, d);
    } else if d < i {
      C32Ascends(d, i);
    }
  }

  /** The digits of c32 text; None for a letter outside the alphabet. */
  function Read(t: Text): (r: Option<Digits>)
    ensures r.Some? ==> |r.value| == |t| && forall i :: 0 <= i < |t| ==> r.value[i] < 32 && C32[r.value[i]] == t[i]
    ensures r.None? ==> exists i :: 0 <= i < |t| && t[i] !in C32
  {
    if t == [] then Some([])
    else
      var last := |t| - 1;
      var d := IndexByte(C32, t[last]);
      match Read(t[..last])
      case None => None
      case Some(ds) => if d < 0 then assert t[last] !in C32; None else Some(ds + [d])
  }

  lemma ReadOfSpell(ds: Digits)
    requires InBase(ds, 32)
    ensures Read(Spell(ds, C32)) == Some(ds)
  {
    var t := Spell(ds, C32);
    var r := Read(t);
    assert r.Some?;
    forall i | 0 <= i < |ds|
      ensures r.value[i] == ds[i]
    {
      assert C32[r.value[i]] == t[i] == C32[ds[i]];
      IndexOfLetter(ds[i]);
      IndexOfLetter(r.value[i]);
    }
    assert r.value == ds;
  }

  // ---------------------------------------------------------------------------
  // Addresses

  function Payload(sum: Checksum, version: Byte, hash: seq<Byte>): (p: seq<Byte>)
  {
    hash + Sum(sum, version, hash)
  }

  function EncodeAddress(sum: Checksum, version: Byte, hash: seq<Byte>): (r: Option<Text>)
  {
    if version >= 32 then None
    else Some([LETTER_S, C32[version]] + Encode(Payload(sum, version, hash), C32))
  }

  datatype Account = Account(version: Byte, hash: seq<Byte>)

  /** The bytes of a number, left-padded; None when they do not fit. */
  function Padded(n: nat): (r: Option<seq<Byte>>)
    ensures r.Some? ==> |r.value| == PAYLOAD_BYTES
  {
    ValueOfMinimal(n, 256);
    var raw := Minimal(n, 256);
    if |raw| > PAYLOAD_BYTES then None else Some(AsBytes(Zeros(PAYLOAD_BYTES - |raw|) + raw))
  }

  function AsBytes(ds: Digits): (b: seq<Byte>)
    requires InBase(ds, 256)
    ensures b == ds
  {
    seq(|ds|, i requires 0 <= i < |ds| => ds[i])
  }

  function DecodeAddress(sum: Checksum, address: Text): (r: Option<Account>)
  {
    if |address| < 3 || |address| > LONGEST || address[0] != LETTER_S then None
    else
      var version := IndexByte(C32, address[1]);
      if version < 0 || version >= 32 then None
      else
        match Read(address[2..])
        case None => None
        case Some(ds) =>
          match Padded(Value(ds, 32))
          case None => None
          case Some(payload) =>
            var hash := payload[..HASH_BYTES];
            if payload[HASH_BYTES..] != Sum(sum, version, hash) then None
            else if EncodeAddress(sum, version, hash) != Some(address) then None
            else Some(Account(version, hash))
  }

  /** The loop that accumulates the number. */
  method Accumulate(t: Text) returns (r: Option<nat>)
    ensures r == if Read(t).Some? then Some(Value(Read(t).value, 32)) else None
  {
    var n, i := 0, 0;
    while i < |t|
      invariant 0 <= i <= |t|
      invariant Read(t[..i]).Some? && Value(Read(t[..i]).value, 32) == n
    {
      var digit := IndexByte(C32, t[i]);
      assert t[..i + 1][..i] == t[..i];
      if digit < 0 {
        ReadStops(t, i);
        return None;
      }
      assert Read(t[..i + 1]).value[..i] == Read(t[..i]).value;
      n := n * 32 + digit;
      i := i + 1;
    }
    assert t[..i] == t;
    return Some(n);
  }

  lemma ReadStops(t: Text, i: nat)
    requires i < |t| && t[i] !in C32
    ensures Read(t).None?
  {
  }

  method Decode(sum: Checksum, address: Text) returns (r: Option<Account>)
    ensures r == DecodeAddress(sum, address)
  {
    if |address| < 3 || |address| > LONGEST || address[0] != LETTER_S {
      return None;
    }
    var version := IndexByte(C32, address[1]);
    if version < 0 || version >= 32 {
      return None;
    }
    var n := Accumulate(address[2..]);
    if n.None? {
      return None;
    }
    var payload := Padded(n.value);
    if payload.None? {
      return None;
    }
    var hash := payload.value[..HASH_BYTES];
    if payload.value[HASH_BYTES..] != Sum(sum, version, hash) {
      return None;
    }
    var body := EncodeText(Payload(sum, version, hash), C32);
    if [LETTER_S, C32[version]] + body != address {
      return None;
    }
    return Some(Account(version, hash));
  }

  // ---------------------------------------------------------------------------
  // Lengths

  lemma {:induction false} LeadingZerosSplit(b: seq<Byte>)
    ensures b == Zeros(LeadingZeros(b)) + b[LeadingZeros(b)..]
    ensures LeadingZeros(b) < |b| ==> b[LeadingZeros(b)] != 0
  {
    if b != [] && b[0] == 0 {
      LeadingZerosSplit(b[1..]);
      var n := LeadingZeros(b[1..]);
      assert Zeros(n + 1) == [0] + Zeros(n);
      assert b == [b[0]] + b[1..];
    }
  }

  lemma {:induction false} PowSplit(r: nat, a: nat, b: nat)
    ensures Pow(r, a + b) == Pow(r, a) * Pow(r, b)
  {
    if b != 0 {
      PowSplit(r, a, b - 1);
      var x, y := Pow(r, a), Pow(r, b - 1);
      assert (x * y) * r == x * (y * r);
    }
  }

  lemma {:induction false} PowOfPow(k: nat, r: nat, n: nat)
    requires r == Pow(2, k)
    ensures Pow(r, n) == Pow(2, k * n)
  {
    if n != 0 {
      PowOfPow(k, r, n - 1);
      assert k * n == k * (n - 1) + k;
      PowSplit(2, k * (n - 1), k);
    }
  }

  lemma {:induction false} PowGrows(a: nat, b: nat)
    requires a <= b
    ensures Pow(2, a) <= Pow(2, b)
  {
    if a < b {
      PowGrows(a, b - 1);
    }
  }

  /** Five-bit digits of n bytes, and how few there can be. */
  lemma FiveBitLength(value: nat, n: nat, m: nat)
    requires value < Pow(256, n) && 8 * n <= 5 * m
    ensures |Minimal(value, 32)| <= m
  {
    assert Pow(2, 8) == 256 && Pow(2, 5) == 32;
    PowOfPow(8, 256, n);
    PowOfPow(5, 32, m);
    PowGrows(8 * n, 5 * m);
    MinimalLength(value, m, 32);
  }

  lemma TextLength(b: seq<Byte>)
    requires |b| == PAYLOAD_BYTES
    ensures 1 <= |TextDigits(b, 32)| <= LONGEST - 2
  {
    LeadingZerosSplit(b);
    var z := LeadingZeros(b);
    ValueOfPadded(z, b[z..], 256);
    ValueBelow(b[z..], 256);
    FiveBitLength(Value(b, 256), PAYLOAD_BYTES - z, LONGEST - 2 - z);
    if z == 0 {
      MinimalOfValue(b, 256);
      ValueOfMinimal(Value(b, 256), 32);
    }
  }

  // ---------------------------------------------------------------------------
  // Round trips

  lemma PaddedValue(b: seq<Byte>)
    requires |b| == PAYLOAD_BYTES
    ensures Padded(Value(b, 256)) == Some(b)
  {
    var n := Value(b, 256);
    ValueBelow(b, 256);
    MinimalLength(n, PAYLOAD_BYTES, 256);
    FixedIsPadded(n, PAYLOAD_BYTES, 256);
    FixedOfValue(b, 256);
  }

  /** Reading the text of a payload and padding gives the payload back. */
  lemma PayloadRoundTrip(b: seq<Byte>)
    requires |b| == PAYLOAD_BYTES
    ensures Read(Encode(b, C32)).Some?
    ensures Padded(Value(Read(Encode(b, C32)).value, 32)) == Some(b)
  {
    var n := Value(b, 256);
    ReadOfSpell(TextDigits(b, 32));
    ValueOfMinimal(n, 32);
    ValueOfPadded(LeadingZeros(b), Minimal(n, 32), 32);
    PaddedValue(b);
  }

  /** Every encoded account decodes to itself, within the accepted length. */
  lemma EncodeThenDecode(sum: Checksum, version: Byte, hash: seq<Byte>)
    requires version < 32 && |hash| == HASH_BYTES
    ensures var t := EncodeAddress(sum, version, hash);
      && t.Some? && 3 <= |t.value| <= LONGEST
      && DecodeAddress(sum, t.value) == Some(Account(version, hash))
  {
    var p := Payload(sum, version, hash);
    TextLength(p);
    PayloadRoundTrip(p);
    IndexOfLetter(version);
    var t := EncodeAddress(sum, version, hash).value;
    assert t[2..] == Encode(p, C32);
    assert p[..HASH_BYTES] == hash;
  }

  /** An address is accepted exactly when it is the encoding of what it decodes to. */
  lemma DecodeIsExact(sum: Checksum, address: Text, account: Account)
    ensures DecodeAddress(sum, address) == Some(account) <==>
      account.version < 32 && |account.hash| == HASH_BYTES &&
      EncodeAddress(sum, account.version, account.hash) == Some(address)
  {
    if account.version < 32 && |account.hash| == HASH_BYTES {
      EncodeThenDecode(sum, account.version, account.hash);
    }
  }

  /** Different accounts never share an address. */
  lemma AddressesAreUnique(sum: Checksum, a: Account, b: Account)
    requires a.version < 32 && |a.hash| == HASH_BYTES && b.version < 32 && |b.hash| == HASH_BYTES
    requires EncodeAddress(sum, a.version, a.hash) == EncodeAddress(sum, b.version, b.hash)
    ensures a == b
  {
    EncodeThenDecode(sum, a.version, a.hash);
    EncodeThenDecode(sum, b.version, b.hash);
  }
}
