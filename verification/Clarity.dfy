/**
 * Clarity values and their consensus bytes: what may be encoded, and the one byte string it is encoded as.
 * Follows "Clarity Value Representation" in SIP-005.
 */
module Clarity {
  import opened Common
  import opened Radix
  import opened Address

  datatype Flag = FlagTrue | FlagFalse | FlagNone

  datatype Wrapper = WrapOk | WrapErr | WrapSome

  /** One value by the fields its type selects, including the malformed ones a caller can build. */
  datatype Value =
    | Integer(signed: bool, n: Option<int>)
    | Buffer(bytes: seq<Byte>)
    | Simple(flag: Flag)
    | Principal(contract: bool, text: Text)
    | Wrapped(wrapper: Wrapper, items: seq<Value>)
    | List(items: seq<Value>)
    | Tuple(fields: map<Text, Value>)
    | Chars(ascii: bool, text: Text)
    | Unsupported(tag: Byte)

  /**
   * What the codec asks of its surroundings: the c32check address codec and UTF-8 validity. Kept as function
   * values so that the codec's proofs rely on nothing but `Faithful`.
   */
  datatype Rules = Rules(decode: Text -> Option<Account>, encode: Account -> Option<Text>, utf8: Text -> bool)

  predicate AccountValid(a: Account)
  {
    a.version < 32 && |a.hash| == HASH_BYTES
  }

  /** Addresses and accounts correspond one to one, and no address contains a dot. */
  ghost predicate Faithful(rules: Rules)
  {
    && (forall t: Text :: rules.decode(t).Some? ==>
          AccountValid(rules.decode(t).value) && rules.encode(rules.decode(t).value) == Some(t))
    && (forall a: Account :: AccountValid(a) ==>
          rules.encode(a).Some? && rules.decode(rules.encode(a).value) == Some(a) && DOT !in rules.encode(a).value)
    && (forall a: Account :: 32 <= a.version ==> rules.encode(a).None?)
  }

  datatype Limits = Limits(maxBytes: int, maxDepth: int)

  const MAX_UINT32 := 0xffff_ffff
  const TWO_127 := 0x8000_0000_0000_0000_0000_0000_0000_0000
  const TWO_128 := 0x1_0000_0000_0000_0000_0000_0000_0000_0000
  const DOT: Byte := 46

  function FlagTag(f: Flag): (t: Byte)
  {
    match f case FlagTrue => 3 case FlagFalse => 4 case FlagNone => 9
  }

  function WrapperTag(w: Wrapper): (t: Byte)
  {
    match w case WrapOk => 7 case WrapErr => 8 case WrapSome => 10
  }

  // ---------------------------------------------------------------------------
  // Names

  predicate Letter(c: Byte)
  {
    97 <= c <= 122 || 65 <= c <= 90
  }

  predicate Figure(c: Byte)
  {
    48 <= c <= 57
  }

  /** Bytes after the first of an ordinary name: letters, figures and _ - ! ? + < > = / * */
  predicate NameByte(c: Byte)
  {
    Letter(c) || Figure(c) || c in [95, 45, 33, 63, 43, 60, 62, 61, 47, 42]
  }

  /** ValidName: an ordinary name, one operator, or a comparison, within 128 bytes. */
  predicate ValidName(s: Text)
  {
    && 0 < |s| <= 128
    && ( || (Letter(s[0]) && forall i :: 1 <= i < |s| ==> NameByte(s[i]))
         || (|s| == 1 && s[0] in [45, 43, 61, 47, 42])
         || (s[0] in [60, 62] && (|s| == 1 || (|s| == 2 && s[1] == 61))))
  }

  predicate ContractByte(c: Byte)
  {
    Letter(c) || Figure(c) || c == 45 || c == 95
  }

  predicate ValidContractName(s: Text)
  {
    && 0 < |s| <= 128 && Letter(s[0])
    && forall i :: 0 <= i < |s| ==> ContractByte(s[i])
  }

  /** The scan in ValidContractName. */
  method CheckContractName(s: Text) returns (ok: bool)
    ensures ok == ValidContractName(s)
  {
    if |s| == 0 || |s| > 128 || !Letter(s[0]) {
      return false;
    }
    var i := 0;
    while i < |s|
      invariant 0 <= i <= |s| && forall k :: 0 <= k < i ==> ContractByte(s[k])
    {
      if !ContractByte(s[i]) {
        return false;
      }
      i := i + 1;
    }
    return true;
  }

  lemma ContractNamesAreNames(s: Text)
    requires ValidContractName(s)
    ensures ValidName(s) && DOT !in s
  {
  }

  // ---------------------------------------------------------------------------
  // Text

  predicate Tail(b: seq<Byte>, i: nat)
  {
    i < |b| && 0x80 <= b[i] <= 0xbf
  }

  predicate Between(b: seq<Byte>, i: nat, lo: nat, hi: nat)
  {
    i < |b| && lo <= b[i] <= hi
  }

  /** The length of the well-formed UTF-8 sequence at the front, zero when there is none. */
  function RuneLength(b: seq<Byte>): (n: nat)
    requires b != []
    ensures n <= |b|
  {
    var x := b[0];
    if x < 0x80 then 1
    else if 0xc2 <= x <= 0xdf && Tail(b, 1) then 2
    else if x == 0xe0 && Between(b, 1, 0xa0, 0xbf) && Tail(b, 2) then 3
    else if x == 0xed && Between(b, 1, 0x80, 0x9f) && Tail(b, 2) then 3
    else if 0xe1 <= x <= 0xef && x != 0xed && Tail(b, 1) && Tail(b, 2) then 3
    else if x == 0xf0 && Between(b, 1, 0x90, 0xbf) && Tail(b, 2) && Tail(b, 3) then 4
    else if 0xf1 <= x <= 0xf3 && Tail(b, 1) && Tail(b, 2) && Tail(b, 3) then 4
    else if x == 0xf4 && Between(b, 1, 0x80, 0x8f) && Tail(b, 2) && Tail(b, 3) then 4
    else 0
  }

  predicate Utf8Valid(b: seq<Byte>)
  {
    b == [] || (RuneLength(b) != 0 && Utf8Valid(b[RuneLength(b)..]))
  }

  predicate CharsValid(rules: Rules, ascii: bool, text: Text)
  {
    rules.utf8(text) && (ascii ==> forall i :: 0 <= i < |text| ==> text[i] <= 127)
  }

  // ---------------------------------------------------------------------------
  // Numbers

  /** A number as exactly k big-endian bytes. */
  function BigEndian(n: nat, k: nat): (b: seq<Byte>)
    ensures |b| == k && b == Fixed(n, k, 256)
  {
    FixedInBase(n, k);
    AsBytes(Fixed(n, k, 256))
  }

  lemma {:induction false} FixedInBase(n: nat, k: nat)
    ensures InBase(Fixed(n, k, 256), 256)
  {
    if k != 0 {
      FixedInBase(n / 256, k - 1);
    }
  }

  predicate IntegerValid(signed: bool, n: int)
  {
    if signed then -TWO_127 <= n < TWO_127 else 0 <= n < TWO_128
  }

  /** Two's complement for signed numbers. */
  function Unsigned(n: int): (m: nat)
    requires -TWO_127 <= n < TWO_128
    ensures m < TWO_128
  {
    if n < 0 then n + TWO_128 else n
  }

  function IntegerBytes(n: int): (b: seq<Byte>)
    ensures |b| == 16
  {
    if -TWO_127 <= n < TWO_128 then BigEndian(Unsigned(n), 16) else BigEndian(0, 16)
  }

  function Word32(n: nat): (b: seq<Byte>)
    ensures |b| == 4
  {
    BigEndian(n, 4)
  }

  // ---------------------------------------------------------------------------
  // Principals

  /** strings.Split on one separator. */
  function Split(t: Text, sep: Byte): (parts: seq<Text>)
    ensures 1 <= |parts|
  {
    if t == [] then [[]]
    else
      var rest := Split(t[1..], sep);
      if t[0] == sep then [[]] + rest else [[t[0]] + rest[0]] + rest[1..]
  }

  datatype Party = Party(account: Account, name: Text)

  /** The account, and the contract name or nothing, that a principal's text denotes. */
  function PartyOf(rules: Rules, contract: bool, text: Text): (r: Option<Party>)
  {
    var parts := Split(text, DOT);
    if |parts| != (if contract then 2 else 1) then None
    else
      match rules.decode(parts[0])
      case None => None
      case Some(account) =>
        if !contract then Some(Party(account, []))
        else if ValidContractName(parts[1]) then Some(Party(account, parts[1]))
        else None
  }

  function PartyBytes(contract: bool, p: Party): (b: seq<Byte>)
  {
    [p.account.version] + p.account.hash + (if contract then NameBytes(p.name) else [])
  }

  function NameBytes(name: Text): (b: seq<Byte>)
    ensures 1 <= |b| == |name| + 1
  {
    [|name| % 256] + name
  }

  /** The rules in force: c32check with a checksum, and UTF-8. */
  function StandardRules(sum: Checksum): (r: Rules)
  {
    Rules((t: Text) => DecodeAddress(sum, t), (a: Account) => EncodeAddress(sum, a.version, a.hash), (t: Text) => Utf8Valid(t))
  }

  // ---------------------------------------------------------------------------
  // Tuple keys in bytewise order

  /** Go's string `<`. */
  predicate Before(a: Text, b: Text)
  {
    b != [] && (a == [] || a[0] < b[0] || (a[0] == b[0] && Before(a[1..], b[1..])))
  }

  lemma {:induction false} BeforeIsTotal(a: Text, b: Text)
    ensures Before(a, b) || Before(b, a) || a == b
    ensures !(Before(a, b) && Before(b, a))
    ensures !Before(a, a)
  {
    if a != [] {
      BeforeIsTotal(a[1..], if b == [] then [] else b[1..]);
      if b != [] && a[0] == b[0] && a[1..] == b[1..] {
        assert a == [a[0]] + a[1..] && b == [b[0]] + b[1..];
      }
    }
  }

  lemma {:induction false} BeforeIsTransitive(a: Text, b: Text, c: Text)
    requires Before(a, b) && Before(b, c)
    ensures Before(a, c)
  {
    if a != [] && a[0] == b[0] && b[0] == c[0] {
      BeforeIsTransitive(a[1..], b[1..], c[1..]);
    }
  }

  predicate IsLeast(k: Text, keys: set<Text>)
  {
    k in keys && forall x :: x in keys && x != k ==> Before(k, x)
  }

  lemma {:induction false} HasLeast(keys: set<Text>)
    requires keys != {}
    ensures exists k :: IsLeast(k, keys)
  {
    var one :| one in keys;
    var others := keys - {one};
    assert forall x :: x in keys && x != one ==> x in others;
    if others == {} {
      assert IsLeast(one, keys);
    } else {
      HasLeast(others);
      var k :| IsLeast(k, others);
      BeforeIsTotal(one, k);
      if Before(one, k) {
        forall x | x in keys && x != one
          ensures Before(one, x)
        {
          if x != k {
            BeforeIsTransitive(one, k, x);
          }
        }
        assert IsLeast(one, keys);
      } else {
        assert IsLeast(k, keys);
      }
    }
  }

  lemma LeastIsUnique(a: Text, b: Text, keys: set<Text>)
    requires IsLeast(a, keys) && IsLeast(b, keys)
    ensures a == b
  {
    BeforeIsTotal(a, b);
  }

  function Least(keys: set<Text>): (k: Text)
    requires keys != {}
    ensures IsLeast(k, keys)
  {
    HasLeast(keys);
    assert forall a, b :: IsLeast(a, keys) && IsLeast(b, keys) ==> a == b by {
      forall a, b | IsLeast(a, keys) && IsLeast(b, keys)
        ensures a == b
      {
        LeastIsUnique(a, b, keys);
      }
    }
    var k :| k in keys && IsLeast(k, keys);
    k
  }

  /** sort.Strings over a tuple's keys. */
  function Sorted(keys: set<Text>): (names: seq<Text>)
    ensures |names| == |keys| && forall i :: 0 <= i < |names| ==> names[i] in keys
  {
    if keys == {} then [] else
      var k := Least(keys);
      [k] + Sorted(keys - {k})
  }

  // ---------------------------------------------------------------------------
  // What may be encoded, and as what

  /** Whether a value is well formed within so many levels. */
  ghost predicate Encodable(rules: Rules, v: Value, levels: int)
    decreases v
  {
    1 <= levels &&
    match v
    case Integer(signed, n) => n.Some? && IntegerValid(signed, n.value)
    case Buffer(bytes) => |bytes| <= MAX_UINT32
    case Simple(_) => true
    case Principal(contract, text) => PartyOf(rules, contract, text).Some?
    case Wrapped(_, items) => |items| == 1 && Encodable(rules, items[0], levels - 1)
    case List(items) =>
      |items| <= MAX_UINT32 && forall i :: 0 <= i < |items| ==> Encodable(rules, items[i], levels - 1)
    case Tuple(fields) =>
      |fields| <= MAX_UINT32 && forall k :: k in fields ==> ValidName(k) && Encodable(rules, fields[k], levels - 1)
    case Chars(ascii, text) => |text| <= MAX_UINT32 && CharsValid(rules, ascii, text)
    case Unsupported(_) => false
  }

  function DataBytes(data: seq<Byte>): (b: seq<Byte>)
  {
    Word32(|data|) + data
  }

  /** The consensus bytes of a value. */
  function Wire(rules: Rules, v: Value): (b: seq<Byte>)
    ensures b != []
    decreases v
  {
    match v
    case Integer(signed, n) => [if signed then 0 else 1] + (if n.Some? then IntegerBytes(n.value) else [])
    case Buffer(bytes) => [2] + DataBytes(bytes)
    case Simple(flag) => [FlagTag(flag)]
    case Principal(contract, text) =>
      [if contract then 6 else 5] +
      (match PartyOf(rules, contract, text) case Some(p) => PartyBytes(contract, p) case None => [])
    case Wrapped(w, items) => [WrapperTag(w)] + WireItems(rules, items)
    case List(items) => [11] + (Word32(|items|) + WireItems(rules, items))
    case Tuple(fields) => [12] + (Word32(|fields|) + WireFields(rules, v, Sorted(fields.Keys)))
    case Chars(ascii, text) => [if ascii then 13 else 14] + DataBytes(text)
    case Unsupported(tag) => [tag]
  }

  function WireItems(rules: Rules, items: seq<Value>): (b: seq<Byte>)
    ensures |items| <= |b|
    decreases items
  {
    if items == [] then [] else Wire(rules, items[0]) + WireItems(rules, items[1..])
  }

  function FieldBytes(name: Text, value: seq<Byte>): (b: seq<Byte>)
  {
    NameBytes(name) + value
  }

  function WireFields(rules: Rules, v: Value, names: seq<Text>): (b: seq<Byte>)
    requires v.Tuple? && forall i :: 0 <= i < |names| ==> names[i] in v.fields
    decreases v, |names|
  {
    if names == [] then []
    else FieldBytes(names[0], Wire(rules, v.fields[names[0]])) + WireFields(rules, v, names[1..])
  }

  predicate LimitsValid(l: Limits)
  {
    1 <= l.maxBytes && 1 <= l.maxDepth <= 256
  }

  /** EncodeWithLimits in one condition: a well-formed value that fits the depth and the byte budget. */
  ghost function Encoded(rules: Rules, v: Value, l: Limits): (r: Option<seq<Byte>>)
  {
    if LimitsValid(l) && Encodable(rules, v, l.maxDepth) && |Wire(rules, v)| <= l.maxBytes then Some(Wire(rules, v)) else None
  }

  // ---------------------------------------------------------------------------
  // Lengths and grouping

  lemma Assoc(a: seq<Byte>, b: seq<Byte>, c: seq<Byte>)
    ensures a + (b + c) == (a + b) + c
  {
  }

  /** A field takes a length, a name of at least one byte and a tag. */
  lemma {:induction false} FieldsAreLong(rules: Rules, v: Value, names: seq<Text>)
    requires v.Tuple? && forall i :: 0 <= i < |names| ==> names[i] in v.fields && ValidName(names[i])
    ensures 3 * |names| <= |WireFields(rules, v, names)|
  {
    if names != [] {
      FieldsAreLong(rules, v, names[1..]);
    }
  }
}
