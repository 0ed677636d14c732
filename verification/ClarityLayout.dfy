/**
 * The byte layout of "Clarity Value Representation" in SIP-005, said byte by byte: which type identifier comes first,
 * where lengths, numbers, principals and names stand and what they add up to. The codec's encodings are exactly the
 * byte strings laid out this way.
 */
module ClarityLayout {
  import opened Common
  import opened Radix
  import opened Address
  import opened Clarity
  import opened ClarityDecode
  import ClarityEncode
  import opened ClarityProofs

  // ---------------------------------------------------------------------------
  // The layout

  /** A type identifier, a four-byte length and that many bytes. */
  ghost predicate Counted(b: seq<Byte>, tag: nat, data: seq<Byte>)
  {
    5 <= |b| && b[0] == tag && Positional(b[1..5], 256) == |data| && b[5..] == data
  }

  /** A version byte, twenty hash bytes and, for a contract, the length of its name and its name. */
  ghost predicate PartyLaid(rules: Rules, contract: bool, text: Text, b: seq<Byte>)
  {
    && 22 <= |b| && b[0] == (if contract then 6 else 5)
    && rules.encode(Account(b[1], b[2..22])).Some?
    && var address := rules.encode(Account(b[1], b[2..22])).value;
       if contract then 23 <= |b| && b[22] == |b| - 23 && text == address + ([46] + b[23..])
       else |b| == 22 && text == address
  }

  /** Sixteen bytes that add up to the number modulo 2 to the 128th. */
  ghost predicate NumberLaid(signed: bool, n: int, b: seq<Byte>)
  {
    && |b| == 17 && b[0] == (if signed then 0 else 1)
    && (if signed then -0x8000_0000_0000_0000_0000_0000_0000_0000 <= n < 0x8000_0000_0000_0000_0000_0000_0000_0000
        else 0 <= n < 0x1_0000_0000_0000_0000_0000_0000_0000_0000)
    && Positional(b[1..], 256) == (if n < 0 then n + 0x1_0000_0000_0000_0000_0000_0000_0000_0000 else n)
  }

  ghost predicate Laid(rules: Rules, v: Clarity.Value, b: seq<Byte>)
    decreases v, 2
  {
    match v
    case Integer(signed, n) => n.Some? && NumberLaid(signed, n.value, b)
    case Buffer(data) => Counted(b, 2, data)
    case Simple(flag) => (match flag case FlagTrue => b == [3] case FlagFalse => b == [4] case FlagNone => b == [9])
    case Principal(contract, text) => PartyLaid(rules, contract, text, b)
    case Wrapped(w, items) =>
      && |items| == 1 && 1 <= |b| && b[0] == (match w case WrapOk => 7 case WrapErr => 8 case WrapSome => 10)
      && Laid(rules, items[0], b[1..])
    case List(items) => 5 <= |b| && b[0] == 11 && Positional(b[1..5], 256) == |items| && ItemsLaid(rules, items, b[5..])
    case Tuple(fields) =>
      && 5 <= |b| && b[0] == 12 && Positional(b[1..5], 256) == |fields|
      && exists names: seq<Text> :: Enumerates(names, fields.Keys) && FieldsLaid(rules, v, names, b[5..])
    case Chars(ascii, text) =>
      if ascii then Counted(b, 13, text) && (forall i :: 0 <= i < |text| ==> text[i] < 128) else Counted(b, 14, text)
    case Unsupported(_) => false
  }

  /** One value after another, nothing between or behind them. */
  ghost predicate ItemsLaid(rules: Rules, items: seq<Clarity.Value>, b: seq<Byte>)
    decreases items, 0
  {
    if items == [] then b == []
    else exists k: nat :: k <= |b| && Laid(rules, items[0], b[..k]) && ItemsLaid(rules, items[1..], b[k..])
  }

  /** Bytewise order: equal so far, and then a smaller byte or the end. */
  ghost predicate Precedes(a: Text, b: Text)
  {
    exists k: nat :: PrecedesAt(a, b, k)
  }

  predicate PrecedesAt(a: Text, b: Text, k: nat)
  {
    && k <= |a| && k < |b| && a[..k] == b[..k]
    && (k < |a| ==> a[k] < b[k])
  }

  /** All keys, each once, in ascending bytewise order. */
  ghost predicate Enumerates(names: seq<Text>, keys: set<Text>)
  {
    && (forall k :: k in keys <==> k in names)
    && (forall i, j :: 0 <= i < j < |names| ==> Precedes(names[i], names[j]))
  }

  /** A field's name length, its name and its value, then the next. */
  ghost predicate FieldsLaid(rules: Rules, v: Clarity.Value, names: seq<Text>, b: seq<Byte>)
    requires v.Tuple? && forall i :: 0 <= i < |names| ==> names[i] in v.fields
    decreases v, 1, |names|
  {
    if names == [] then b == []
    else
      var n := 1 + |names[0]|;
      && n <= |b| && b[0] == |names[0]| && b[1..n] == names[0]
      && exists k: nat :: n <= k <= |b| && Laid(rules, v.fields[names[0]], b[n..k]) && FieldsLaid(rules, v, names[1..], b[k..])
  }

  // ---------------------------------------------------------------------------
  // Order

  lemma {:induction false} BeforeIsBytewise(a: Text, b: Text)
    ensures Before(a, b) <==> Precedes(a, b)
  {
    if Before(a, b) {
      var k := BeforeAt(a, b);
    }
    if Precedes(a, b) {
      var k: nat :| PrecedesAt(a, b, k);
      AtIsBefore(a, b, k);
    }
  }

  lemma {:induction false} BeforeAt(a: Text, b: Text) returns (k: nat)
    requires Before(a, b)
    ensures PrecedesAt(a, b, k)
  {
    if a != [] && a[0] == b[0] {
      var i := BeforeAt(a[1..], b[1..]);
      k := i + 1;
      assert a[..k] == [a[0]] + a[1..][..i] && b[..k] == [b[0]] + b[1..][..i];
    } else {
      k := 0;
    }
  }

  lemma {:induction false} AtIsBefore(a: Text, b: Text, k: nat)
    requires PrecedesAt(a, b, k)
    ensures Before(a, b)
  {
    if k != 0 {
      assert a[0] == a[..k][0] == b[..k][0] == b[0];
      assert a[1..][..k - 1] == a[..k][1..] && b[1..][..k - 1] == b[..k][1..];
      AtIsBefore(a[1..], b[1..], k - 1);
    }
  }

  lemma OrderIsBytewise(names: seq<Text>)
    ensures Ascending(names) <==> forall i, j :: 0 <= i < j < |names| ==> Precedes(names[i], names[j])
  {
    forall i, j | 0 <= i < j < |names|
      ensures Before(names[i], names[j]) <==> Precedes(names[i], names[j])
    {
      BeforeIsBytewise(names[i], names[j]);
    }
  }

  // ---------------------------------------------------------------------------
  // Positions and digits

  /** Four bytes add up to a length exactly when they are its big-endian bytes. */
  lemma WordIsPositional(b: seq<Byte>, n: nat)
    requires |b| == 4
    ensures Positional(b, 256) == n <==> n <= MAX_UINT32 && b == Word32(n)
  {
    PositionalIsValue(b, 256);
    WordOfValue(b);
    if n <= MAX_UINT32 {
      WordRoundTrip(n);
    }
  }

  lemma CountedIsData(b: seq<Byte>, tag: Byte, data: seq<Byte>)
    ensures Counted(b, tag, data) <==> |data| <= MAX_UINT32 && b == [tag] + DataBytes(data)
  {
    if 5 <= |b| {
      WordIsPositional(b[1..5], |data|);
      assert b == [b[0]] + (b[1..5] + b[5..]);
    }
    if b == [tag] + DataBytes(data) {
      assert b[1..5] == Word32(|data|) && b[5..] == data;
    }
  }

  /** Sixteen bytes add up to a number modulo 2 to the 128th exactly when they are its two's complement. */
  lemma NumberIsBytes(signed: bool, n: int, b: seq<Byte>)
    ensures NumberLaid(signed, n, b) <==> IntegerValid(signed, n) && b == [if signed then 0 else 1] + IntegerBytes(n)
  {
    if IntegerValid(signed, n) && b == [if signed then 0 else 1] + IntegerBytes(n) {
      assert b[1..] == IntegerBytes(n);
      BytesAddUp(n);
    }
    if NumberLaid(signed, n, b) {
      SixteenBytes(b[1..], n);
      assert b == [b[0]] + b[1..];
    }
  }

  lemma BytesAddUp(n: int)
    requires -TWO_127 <= n < TWO_128
    ensures Positional(IntegerBytes(n), 256) == Unsigned(n)
  {
    Pow256();
    ValueOfFixed(Unsigned(n), 16, 256);
    PositionalIsValue(IntegerBytes(n), 256);
  }

  lemma SixteenBytes(b: seq<Byte>, n: int)
    requires |b| == 16 && -TWO_127 <= n < TWO_128 && Positional(b, 256) == Unsigned(n)
    ensures b == IntegerBytes(n)
  {
    PositionalIsValue(b, 256);
    FixedOfValue(b, 256);
  }

  lemma PartyIsBytes(rules: Rules, contract: bool, text: Text, b: seq<Byte>)
    requires Faithful(rules) && PartyOf(rules, contract, text).Some?
    ensures PartyLaid(rules, contract, text, b) <==>
      b == [if contract then 6 else 5] + PartyBytes(contract, PartyOf(rules, contract, text).value)
  {
    var p := PartyOf(rules, contract, text).value;
    PartyIsItsText(rules, contract, text, p);
    if b == [if contract then 6 else 5] + PartyBytes(contract, p) {
      PartyBytesAreLaid(rules, contract, text, p, b);
    }
    if PartyLaid(rules, contract, text, b) {
      LaidPartyIsBytes(rules, contract, text, p, b);
    }
  }

  lemma PartyBytesAreLaid(rules: Rules, contract: bool, text: Text, p: Party, b: seq<Byte>)
    requires Faithful(rules) && PartyValid(contract, p) && text == PartyText(rules, contract, p)
    requires b == [if contract then 6 else 5] + PartyBytes(contract, p)
    ensures PartyLaid(rules, contract, text, b)
  {
    assert b[2..22] == p.account.hash && b[1] == p.account.version;
    assert Account(b[1], b[2..22]) == p.account;
    if contract {
      assert b[22] == |p.name| && b[23..] == p.name;
    } else {
      assert text == rules.encode(p.account).value;
    }
  }

  lemma LaidPartyIsBytes(rules: Rules, contract: bool, text: Text, p: Party, b: seq<Byte>)
    requires Faithful(rules) && PartyOf(rules, contract, text) == Some(p) && PartyLaid(rules, contract, text, b)
    ensures b == [if contract then 6 else 5] + PartyBytes(contract, p)
  {
    var a := Account(b[1], b[2..22]);
    var address := rules.encode(a).value;
    PartyIsItsText(rules, contract, text, p);
    SameAddress(rules, a, address);
    if contract {
      SplitPair(text, rules.encode(p.account).value, p.name, DOT);
      ContractNamesAreNames(p.name);
      SameParts(text, address, b[23..], rules.encode(p.account).value, p.name);
      assert b == [b[0]] + ([b[1]] + b[2..22] + ([b[22]] + b[23..]));
    } else {
      assert text == rules.encode(p.account).value;
      assert b == [b[0]] + ([b[1]] + b[2..22] + []);
    }
  }

  /** An address that was encoded decodes to its account and contains no dot. */
  lemma SameAddress(rules: Rules, a: Account, address: Text)
    requires Faithful(rules) && rules.encode(a) == Some(address) && |a.hash| == HASH_BYTES
    ensures rules.decode(address) == Some(a) && DOT !in address
  {
    assert a.version < 32;
  }

  lemma {:induction false} FirstDot(a: Text, m: Text)
    requires DOT !in a
    ensures IndexByte(a + ([DOT] + m), DOT) == |a|
  {
    var t := a + ([DOT] + m);
    if a != [] {
      assert t[1..] == a[1..] + ([DOT] + m);
      FirstDot(a[1..], m);
    }
  }

  /** A text splits at its first dot in one way. */
  lemma SameParts(text: Text, a: Text, m: Text, c: Text, n: Text)
    requires text == a + ([DOT] + m) && text == c + ([DOT] + n) && DOT !in a && DOT !in c
    ensures a == c && m == n
  {
    FirstDot(a, m);
    FirstDot(c, n);
    assert a == text[..|a|] == c;
    assert m == text[|a| + 1..] == n;
  }

  // ---------------------------------------------------------------------------
  // Encodings are laid out

  lemma {:induction false} WireIsLaid(rules: Rules, v: Clarity.Value, levels: int)
    requires Faithful(rules) && Encodable(rules, v, levels)
    ensures Laid(rules, v, Wire(rules, v))
    decreases v, 3
  {
    var b := Wire(rules, v);
    match v {
      case Integer(signed, n) => NumberIsBytes(signed, n.value, b);
      case Buffer(data) => CountedIsData(b, 2, data);
      case Simple(flag) =>
      case Principal(contract, text) => PartyIsBytes(rules, contract, text, b);
      case Wrapped(w, items) =>
        WireIsLaid(rules, items[0], levels - 1);
        WrappedLaidFrom(rules, w, items);
      case List(items) =>
        ItemsAreLaid(rules, items, levels - 1);
        ListLaidFrom(rules, items, WireItems(rules, items));
      case Tuple(fields) =>
        TupleIsLaid(rules, v, levels);
      case Chars(ascii, text) => CountedIsData(b, if ascii then 13 else 14, text);
    }
  }

  lemma WrappedLaidFrom(rules: Rules, w: Wrapper, items: seq<Clarity.Value>)
    requires |items| == 1 && Laid(rules, items[0], Wire(rules, items[0]))
    ensures Laid(rules, Wrapped(w, items), Wire(rules, Wrapped(w, items)))
  {
    assert items == [items[0]];
    OneItem(rules, items[0]);
    assert Wire(rules, Wrapped(w, items))[1..] == Wire(rules, items[0]);
  }

  lemma ListLaidFrom(rules: Rules, items: seq<Clarity.Value>, body: seq<Byte>)
    requires |items| <= MAX_UINT32 && ItemsLaid(rules, items, body)
    ensures Laid(rules, List(items), [11] + (Word32(|items|) + body))
  {
    var b := [11] + (Word32(|items|) + body);
    assert b[1..5] == Word32(|items|) && b[5..] == body;
    WordIsPositional(b[1..5], |items|);
  }

  lemma {:induction false} ItemsAreLaid(rules: Rules, items: seq<Clarity.Value>, levels: int)
    requires Faithful(rules) && forall i :: 0 <= i < |items| ==> Encodable(rules, items[i], levels)
    ensures ItemsLaid(rules, items, WireItems(rules, items))
    decreases items, 0
  {
    if items != [] {
      WireIsLaid(rules, items[0], levels);
      ItemsAreLaid(rules, items[1..], levels);
      var b, k := WireItems(rules, items), |Wire(rules, items[0])|;
      assert b[..k] == Wire(rules, items[0]) && b[k..] == WireItems(rules, items[1..]);
    }
  }

  lemma {:induction false} TupleIsLaid(rules: Rules, v: Clarity.Value, levels: int)
    requires Faithful(rules) && v.Tuple? && Encodable(rules, v, levels)
    ensures Laid(rules, v, Wire(rules, v))
    decreases v, 2, |v.fields|
  {
    var names := Sorted(v.fields.Keys);
    SortedEnumerates(v.fields.Keys);
    ClarityProofs.TupleNames(rules, v, levels);
    FieldsAreLaid(rules, v, names, levels - 1);
    TupleLaidFrom(rules, v, names, WireFields(rules, v, names));
  }

  lemma TupleLaidFrom(rules: Rules, v: Clarity.Value, names: seq<Text>, body: seq<Byte>)
    requires v.Tuple? && |v.fields| <= MAX_UINT32 && Enumerates(names, v.fields.Keys) && FieldsLaid(rules, v, names, body)
    ensures Laid(rules, v, [12] + (Word32(|v.fields|) + body))
  {
    var b := [12] + (Word32(|v.fields|) + body);
    assert b[1..5] == Word32(|v.fields|) && b[5..] == body;
    WordIsPositional(b[1..5], |v.fields|);
  }

  lemma SortedEnumerates(keys: set<Text>)
    ensures Enumerates(Sorted(keys), keys)
  {
    SortedAscends(keys);
    OrderIsBytewise(Sorted(keys));
    ClarityEncode.KeysAreSorted(keys);
  }

  lemma {:induction false} FieldsAreLaid(rules: Rules, v: Clarity.Value, names: seq<Text>, levels: int)
    requires Faithful(rules) && v.Tuple? && NamesValid(rules, v, names, levels)
    ensures FieldsLaid(rules, v, names, WireFields(rules, v, names))
    decreases v, 1, |names|
  {
    if names != [] {
      var child := v.fields[names[0]];
      WireIsLaid(rules, child, levels);
      FieldsAreLaid(rules, v, names[1..], levels);
      FieldLaidFrom(rules, v, names, Wire(rules, child), WireFields(rules, v, names[1..]));
    }
  }

  lemma FieldLaidFrom(rules: Rules, v: Clarity.Value, names: seq<Text>, value: seq<Byte>, more: seq<Byte>)
    requires v.Tuple? && names != [] && (forall i :: 0 <= i < |names| ==> names[i] in v.fields) && |names[0]| <= 128
    requires Laid(rules, v.fields[names[0]], value) && FieldsLaid(rules, v, names[1..], more)
    ensures FieldsLaid(rules, v, names, FieldBytes(names[0], value) + more)
  {
    var b, n := FieldBytes(names[0], value) + more, 1 + |names[0]|;
    var k := n + |value|;
    assert b[n..k] == value && b[k..] == more && b[1..n] == names[0];
  }

  // ---------------------------------------------------------------------------
  // Nothing else is laid out

  lemma {:induction false} LaidIsWire(rules: Rules, v: Clarity.Value, b: seq<Byte>, levels: int)
    requires Faithful(rules) && Encodable(rules, v, levels) && Laid(rules, v, b)
    ensures b == Wire(rules, v)
    decreases v, 3
  {
    match v {
      case Integer(signed, n) => NumberIsBytes(signed, n.value, b);
      case Buffer(data) => CountedIsData(b, 2, data);
      case Simple(flag) =>
      case Principal(contract, text) => PartyIsBytes(rules, contract, text, b);
      case Wrapped(w, items) =>
        LaidIsWire(rules, items[0], b[1..], levels - 1);
        OneItem(rules, items[0]);
        assert items == [items[0]];
        assert b == [b[0]] + b[1..];
      case List(items) =>
        LaidItemsAreWire(rules, items, b[5..], levels - 1);
        ListFrom(rules, items, b);
      case Tuple(fields) =>
        LaidTupleIsWire(rules, v, b, levels);
      case Chars(ascii, text) => CountedIsData(b, if ascii then 13 else 14, text);
    }
  }

  lemma ListFrom(rules: Rules, items: seq<Clarity.Value>, b: seq<Byte>)
    requires Laid(rules, List(items), b) && b[5..] == WireItems(rules, items)
    ensures b == Wire(rules, List(items))
  {
    WordIsPositional(b[1..5], |items|);
    assert b == [b[0]] + (b[1..5] + b[5..]);
  }

  lemma {:induction false} LaidItemsAreWire(rules: Rules, items: seq<Clarity.Value>, b: seq<Byte>, levels: int)
    requires Faithful(rules) && ItemsLaid(rules, items, b)
    requires forall i :: 0 <= i < |items| ==> Encodable(rules, items[i], levels)
    ensures b == WireItems(rules, items)
    decreases items, 0
  {
    if items != [] {
      var k: nat :| k <= |b| && Laid(rules, items[0], b[..k]) && ItemsLaid(rules, items[1..], b[k..]);
      LaidIsWire(rules, items[0], b[..k], levels);
      LaidItemsAreWire(rules, items[1..], b[k..], levels);
      assert b == b[..k] + b[k..];
    }
  }

  lemma {:induction false} LaidTupleIsWire(rules: Rules, v: Clarity.Value, b: seq<Byte>, levels: int)
    requires Faithful(rules) && v.Tuple? && Encodable(rules, v, levels) && Laid(rules, v, b)
    ensures b == Wire(rules, v)
    decreases v, 2, |v.fields|
  {
    var names := LaidNames(rules, v, b);
    SortedFieldsAreWire(rules, v, b[5..], levels);
    TupleFrom(rules, v, b);
  }

  lemma {:induction false} SortedFieldsAreWire(rules: Rules, v: Clarity.Value, body: seq<Byte>, levels: int)
    requires Faithful(rules) && v.Tuple? && Encodable(rules, v, levels) && FieldsLaid(rules, v, Sorted(v.fields.Keys), body)
    ensures body == WireFields(rules, v, Sorted(v.fields.Keys))
    decreases v, 1, |v.fields| + 1
  {
    ClarityProofs.TupleNames(rules, v, levels);
    LaidFieldsAreWire(rules, v, Sorted(v.fields.Keys), body, levels - 1);
  }

  /** There is only one order the fields can stand in. */
  lemma LaidNames(rules: Rules, v: Clarity.Value, b: seq<Byte>) returns (names: seq<Text>)
    requires v.Tuple? && Laid(rules, v, b)
    ensures names == Sorted(v.fields.Keys) && 5 <= |b| && FieldsLaid(rules, v, names, b[5..])
  {
    names :| Enumerates(names, v.fields.Keys) && FieldsLaid(rules, v, names, b[5..]);
    OrderIsBytewise(names);
    AscendingIsSorted(names);
    assert Members(names) == v.fields.Keys;
  }

  lemma TupleFrom(rules: Rules, v: Clarity.Value, b: seq<Byte>)
    requires v.Tuple? && Laid(rules, v, b) && b[5..] == WireFields(rules, v, Sorted(v.fields.Keys))
    ensures b == Wire(rules, v)
  {
    WordIsPositional(b[1..5], |v.fields|);
    assert b == [b[0]] + (b[1..5] + b[5..]);
  }

  lemma {:induction false} LaidFieldsAreWire(rules: Rules, v: Clarity.Value, names: seq<Text>, b: seq<Byte>, levels: int)
    requires Faithful(rules) && v.Tuple? && NamesValid(rules, v, names, levels) && FieldsLaid(rules, v, names, b)
    ensures b == WireFields(rules, v, names)
    decreases v, 1, |names|
  {
    if names != [] {
      var n := 1 + |names[0]|;
      var k := FirstField(rules, v, names, b);
      LaidIsWire(rules, v.fields[names[0]], b[n..k], levels);
      LaidFieldsAreWire(rules, v, names[1..], b[k..], levels);
      FieldFrom(rules, v, names, b, k);
    }
  }

  /** Where the first field ends. */
  lemma FirstField(rules: Rules, v: Clarity.Value, names: seq<Text>, b: seq<Byte>) returns (k: nat)
    requires v.Tuple? && names != [] && (forall i :: 0 <= i < |names| ==> names[i] in v.fields) && FieldsLaid(rules, v, names, b)
    ensures var n := 1 + |names[0]|;
      n <= k <= |b| && Laid(rules, v.fields[names[0]], b[n..k]) && FieldsLaid(rules, v, names[1..], b[k..])
  {
    var n := 1 + |names[0]|;
    k :| n <= k <= |b| && Laid(rules, v.fields[names[0]], b[n..k]) && FieldsLaid(rules, v, names[1..], b[k..]);
  }

  lemma FieldFrom(rules: Rules, v: Clarity.Value, names: seq<Text>, b: seq<Byte>, k: nat)
    requires v.Tuple? && names != [] && (forall i :: 0 <= i < |names| ==> names[i] in v.fields) && |names[0]| <= 128
    requires 1 + |names[0]| <= k <= |b| && b[0] == |names[0]| && b[1..1 + |names[0]|] == names[0]
    requires b[1 + |names[0]|..k] == Wire(rules, v.fields[names[0]]) && b[k..] == WireFields(rules, v, names[1..])
    ensures b == WireFields(rules, v, names)
  {
    var n := 1 + |names[0]|;
    assert b == ([b[0]] + b[1..n] + b[n..k]) + b[k..];
  }

  // ---------------------------------------------------------------------------
  // Results

  /**
   * A byte string decodes to a value exactly when the limits are valid, it fits, the value is well formed within the
   * depth, and the bytes are laid out as the value's kind prescribes.
   */
  lemma AcceptedBytesAreLaidOut(rules: Rules, b: seq<Byte>, l: Limits, v: Clarity.Value)
    requires Faithful(rules)
    ensures DecodeWithLimits(rules, b, l) == Some(v) <==>
      LimitsValid(l) && |b| <= l.maxBytes && Encodable(rules, v, l.maxDepth) && Laid(rules, v, b)
  {
    DecodingIsExact(rules, b, l, v);
    if Encodable(rules, v, l.maxDepth) {
      WireIsLaid(rules, v, l.maxDepth);
      if Laid(rules, v, b) {
        LaidIsWire(rules, v, b, l.maxDepth);
      }
    }
  }

  /** And the encoder produces exactly the layout. */
  lemma EncodingsAreLaidOut(rules: Rules, b: seq<Byte>, l: Limits, v: Clarity.Value)
    requires Faithful(rules)
    ensures Encoded(rules, v, l) == Some(b) <==>
      LimitsValid(l) && |b| <= l.maxBytes && Encodable(rules, v, l.maxDepth) && Laid(rules, v, b)
  {
    if Encodable(rules, v, l.maxDepth) {
      WireIsLaid(rules, v, l.maxDepth);
      if Laid(rules, v, b) {
        LaidIsWire(rules, v, b, l.maxDepth);
      }
    }
  }
}
