/** The codec's two directions undo each other: a byte string is accepted exactly when it is a value's encoding. */
module ClarityProofs {
  import opened Common
  import opened Radix
  import opened Address
  import opened Clarity
  import opened ClarityDecode

  // ---------------------------------------------------------------------------
  // Numbers

  lemma Pow256()
    ensures Pow(256, 4) == MAX_UINT32 + 1 && Pow(256, 16) == TWO_128 && Pow(256, 15) == TWO_128 / 256
  {
    assert Pow(256, 4) == 0x1_0000_0000;
    PowSplit(256, 4, 4);
    PowSplit(256, 8, 4);
    PowSplit(256, 12, 4);
    assert Pow(256, 3) == 0x100_0000;
    PowSplit(256, 12, 3);
  }

  lemma WordRoundTrip(n: nat)
    requires n <= MAX_UINT32
    ensures Radix.Value(Word32(n), 256) == n
  {
    Pow256();
    ValueOfFixed(n, 4, 256);
  }

  lemma WordOfValue(b: seq<Byte>)
    requires |b| == 4
    ensures Radix.Value(b, 256) <= MAX_UINT32 && Word32(Radix.Value(b, 256)) == b
  {
    Pow256();
    ValueBelow(b, 256);
    FixedOfValue(b, 256);
  }

  /** The first of sixteen bytes holds the top bit. */
  lemma TopBit(b: seq<Byte>)
    requires |b| == 16
    ensures Radix.Value(b, 256) < TWO_128
    ensures 128 <= b[0] <==> TWO_127 <= Radix.Value(b, 256)
  {
    Pow256();
    ValueBelow(b, 256);
    LeadDigit(b, 256);
    ValueBelow(b[1..], 256);
  }

  lemma IntegerExact(signed: bool, raw: seq<Byte>, n: int, rest: seq<Byte>)
    ensures ParseInteger(signed, raw) == Parsed(Integer(signed, Some(n)), rest) <==>
      IntegerValid(signed, n) && raw == IntegerBytes(n) + rest
  {
    if 16 <= |raw| {
      var b := raw[..16];
      TopBit(b);
      FixedOfValue(b, 256);
      assert raw == b + raw[16..];
    }
    if IntegerValid(signed, n) {
      var b := IntegerBytes(n);
      Pow256();
      ValueOfFixed(Unsigned(n), 16, 256);
      TopBit(b);
      assert (b + rest)[..16] == b && (b + rest)[16..] == rest;
    }
  }

  // ---------------------------------------------------------------------------
  // Data and names

  lemma CountExact(raw: seq<Byte>, n: nat, rest: seq<Byte>)
    ensures ParseCount(raw) == Parsed(n, rest) <==> n <= MAX_UINT32 && n <= |rest| && raw == Word32(n) + rest
  {
    if 4 <= |raw| {
      WordOfValue(raw[..4]);
      assert raw == raw[..4] + raw[4..];
    }
    if n <= MAX_UINT32 {
      WordRoundTrip(n);
      assert (Word32(n) + rest)[..4] == Word32(n) && (Word32(n) + rest)[4..] == rest;
    }
  }

  lemma DataExact(raw: seq<Byte>, data: seq<Byte>, rest: seq<Byte>)
    ensures ParseData(raw) == Parsed(data, rest) <==> |data| <= MAX_UINT32 && raw == DataBytes(data) + rest
  {
    assert DataBytes(data) + rest == Word32(|data|) + (data + rest);
    CountExact(raw, |data|, data + rest);
    if ParseData(raw) == Parsed(data, rest) {
      var c := ParseCount(raw);
      assert c.rest == data + rest;
    }
    if |data| <= MAX_UINT32 && raw == DataBytes(data) + rest {
      assert (data + rest)[..|data|] == data && (data + rest)[|data|..] == rest;
    }
  }

  lemma NameExact(raw: seq<Byte>, name: Text, rest: seq<Byte>)
    ensures ParseName(raw) == Parsed(name, rest) <==> ValidName(name) && raw == NameBytes(name) + rest
  {
    if ParseName(raw) == Parsed(name, rest) {
      assert raw == [raw[0]] + raw[1..1 + raw[0]] + raw[1 + raw[0]..];
    }
    if ValidName(name) && raw == NameBytes(name) + rest {
      assert raw[1..1 + raw[0]] == name && raw[1 + raw[0]..] == rest;
    }
  }

  lemma CharsExact(rules: Rules, ascii: bool, raw: seq<Byte>, text: Text, rest: seq<Byte>)
    ensures ParseChars(rules, ascii, raw) == Parsed(Chars(ascii, text), rest) <==>
      |text| <= MAX_UINT32 && CharsValid(rules, ascii, text) && raw == DataBytes(text) + rest
  {
    DataExact(raw, text, rest);
  }

  // ---------------------------------------------------------------------------
  // Principals

  lemma {:induction false} SplitWhole(t: Text, sep: Byte)
    ensures |Split(t, sep)| == 1 <==> sep !in t
    ensures |Split(t, sep)| == 1 ==> Split(t, sep)[0] == t
  {
    if t != [] {
      SplitWhole(t[1..], sep);
      assert t == [t[0]] + t[1..];
    }
  }

  /** Two parts are the text before and after the only separator. */
  lemma {:induction false} SplitPair(t: Text, a: Text, b: Text, sep: Byte)
    ensures Split(t, sep) == [a, b] <==> sep !in a && sep !in b && t == a + ([sep] + b)
  {
    if t != [] {
      var rest := t[1..];
      assert t == [t[0]] + rest;
      if t[0] == sep {
        SplitWhole(rest, sep);
        SplitAtFront(t, a, b, sep);
        assert Split(t, sep)[1..] == Split(rest, sep);
        assert a == [] && sep !in b && rest == b ==> Split(rest, sep) == [b];
      } else if a != [] {
        SplitPair(rest, a[1..], b, sep);
        assert a == [a[0]] + a[1..];
        SplitFurther(t, a, b, sep);
        assert Split(t, sep)[1..] == Split(rest, sep)[1..];
        assert Split(t, sep)[0] == [t[0]] + Split(rest, sep)[0];
      } else {
        assert Split(t, sep)[0][0] == t[0];
      }
    }
  }

  lemma SplitAtFront(t: Text, a: Text, b: Text, sep: Byte)
    requires t != [] && t[0] == sep
    ensures sep !in a && t == a + ([sep] + b) <==> a == [] && t[1..] == b
  {
    assert t == [sep] + t[1..];
    if t == a + ([sep] + b) {
      assert t[0] == if a == [] then sep else a[0];
      assert a == [] ==> t[1..] == b;
    }
    if a == [] {
      assert a + ([sep] + b) == [sep] + b;
    }
  }

  lemma SplitFurther(t: Text, a: Text, b: Text, sep: Byte)
    requires t != [] && a != []
    ensures t == a + ([sep] + b) <==> t[0] == a[0] && t[1..] == a[1..] + ([sep] + b)
  {
    var whole := a + ([sep] + b);
    assert whole[0] == a[0] && whole[1..] == a[1..] + ([sep] + b);
    assert t == [t[0]] + t[1..] && whole == [whole[0]] + whole[1..];
  }

  ghost predicate PartyValid(contract: bool, p: Party)
  {
    && AccountValid(p.account)
    && (if contract then ValidContractName(p.name) else p.name == [])
  }

  function PartyText(rules: Rules, contract: bool, p: Party): (t: Text)
    requires rules.encode(p.account).Some?
  {
    rules.encode(p.account).value + (if contract then [DOT] + p.name else [])
  }

  /** Text denotes a party exactly when it is that party's text. */
  lemma PartyIsItsText(rules: Rules, contract: bool, text: Text, p: Party)
    requires Faithful(rules)
    ensures PartyOf(rules, contract, text) == Some(p) <==> PartyValid(contract, p) && text == PartyText(rules, contract, p)
  {
    if PartyOf(rules, contract, text) == Some(p) {
      PartyTextOf(rules, contract, text, p);
    }
    if PartyValid(contract, p) && text == PartyText(rules, contract, p) {
      PartyOfText(rules, contract, text, p);
    }
  }

  lemma PartyTextOf(rules: Rules, contract: bool, text: Text, p: Party)
    requires Faithful(rules) && PartyOf(rules, contract, text) == Some(p)
    ensures PartyValid(contract, p) && text == PartyText(rules, contract, p)
  {
    var parts := Split(text, DOT);
    if contract {
      assert parts == [parts[0], parts[1]];
      SplitPair(text, parts[0], parts[1], DOT);
    } else {
      SplitWhole(text, DOT);
    }
  }

  lemma PartyOfText(rules: Rules, contract: bool, text: Text, p: Party)
    requires Faithful(rules) && PartyValid(contract, p) && text == PartyText(rules, contract, p)
    ensures PartyOf(rules, contract, text) == Some(p)
  {
    var address := rules.encode(p.account).value;
    if contract {
      ContractNamesAreNames(p.name);
      SplitPair(text, address, p.name, DOT);
    } else {
      assert text == address;
      SplitWhole(text, DOT);
    }
  }

  lemma PartySound(rules: Rules, contract: bool, raw: seq<Byte>, text: Text, rest: seq<Byte>)
    requires Faithful(rules)
    requires ParseParty(rules, contract, raw) == Parsed(Principal(contract, text), rest)
    ensures PartyOf(rules, contract, text).Some?
    ensures raw == PartyBytes(contract, PartyOf(rules, contract, text).value) + rest
  {
    var account := Account(raw[0], raw[1..21]);
    assert raw == [raw[0]] + raw[1..21] + raw[21..];
    if contract {
      match ParseName(raw[21..]) {
        case Parsed(name, _) =>
          NameExact(raw[21..], name, rest);
          PartyIsItsText(rules, true, text, Party(account, name));
          Assoc([raw[0]] + raw[1..21], NameBytes(name), rest);
      }
    } else {
      PartyIsItsText(rules, false, text, Party(account, []));
      assert [raw[0]] + raw[1..21] + [] == [raw[0]] + raw[1..21];
    }
  }

  lemma PartyComplete(rules: Rules, contract: bool, text: Text, rest: seq<Byte>)
    requires Faithful(rules)
    requires PartyOf(rules, contract, text).Some?
    ensures ParseParty(rules, contract, PartyBytes(contract, PartyOf(rules, contract, text).value) + rest) ==
            Parsed(Principal(contract, text), rest)
  {
    var p := PartyOf(rules, contract, text).value;
    PartyIsItsText(rules, contract, text, p);
    var raw := PartyBytes(contract, p) + rest;
    assert raw[1..21] == p.account.hash;
    if contract {
      assert raw[21..] == NameBytes(p.name) + rest;
      ContractNamesAreNames(p.name);
      NameExact(raw[21..], p.name, rest);
    } else {
      assert raw[21..] == rest;
      assert text == rules.encode(p.account).value;
    }
  }

  // ---------------------------------------------------------------------------
  // Tuple keys

  ghost predicate Ascending(names: seq<Text>)
  {
    forall i, j :: 0 <= i < j < |names| ==> Before(names[i], names[j])
  }

  function Members(names: seq<Text>): (s: set<Text>)
  {
    set n | n in names
  }

  lemma {:induction false} SortedAscends(keys: set<Text>)
    ensures Ascending(Sorted(keys)) && Members(Sorted(keys)) == keys
  {
    if keys != {} {
      var k := Least(keys);
      SortedAscends(keys - {k});
      LeastFirst(k, Sorted(keys - {k}), keys);
    }
  }

  lemma LeastFirst(k: Text, tail: seq<Text>, keys: set<Text>)
    requires IsLeast(k, keys) && Ascending(tail) && Members(tail) == keys - {k}
    ensures Ascending([k] + tail) && Members([k] + tail) == keys
  {
    forall j | 0 <= j < |tail|
      ensures Before(k, tail[j])
    {
      assert tail[j] in Members(tail);
    }
    assert Members([k] + tail) == {k} + Members(tail);
  }

  /** There is only one ascending enumeration of a set. */
  lemma {:induction false} AscendingIsSorted(names: seq<Text>)
    requires Ascending(names)
    ensures Sorted(Members(names)) == names && |Members(names)| == |names|
  {
    if names != [] {
      var head, tail := names[0], names[1..];
      assert names == [head] + tail;
      assert Members(names) == {head} + Members(tail);
      assert head !in Members(tail) by {
        BeforeIsTotal(head, head);
      }
      assert IsLeast(head, Members(names));
      LeastIsUnique(head, Least(Members(names)), Members(names));
      assert Members(names) - {head} == Members(tail);
      AscendingIsSorted(tail);
    }
  }

  // ---------------------------------------------------------------------------
  // Fields as a sequence and as a map

  function Names(fields: seq<Field>): (names: seq<Text>)
    ensures |names| == |fields| && forall i :: 0 <= i < |fields| ==> names[i] == fields[i].name
  {
    seq(|fields|, i requires 0 <= i < |fields| => fields[i].name)
  }

  function FieldsBytes(rules: Rules, fields: seq<Field>): (b: seq<Byte>)
  {
    if fields == [] then []
    else FieldBytes(fields[0].name, Wire(rules, fields[0].value)) + FieldsBytes(rules, fields[1..])
  }

  lemma {:induction false} FieldMapKeys(fields: seq<Field>)
    ensures FieldMap(fields).Keys == Members(Names(fields))
  {
    if fields != [] {
      var front, last := fields[..|fields| - 1], fields[|fields| - 1];
      assert Names(fields) == Names(front) + [last.name];
      FieldMapKeys(front);
      assert Members(Names(fields)) == Members(Names(front)) + {last.name};
    }
  }

  lemma {:induction false} FieldMapAt(fields: seq<Field>, i: nat)
    requires i < |fields| && Ascending(Names(fields))
    ensures fields[i].name in FieldMap(fields) && FieldMap(fields)[fields[i].name] == fields[i].value
  {
    var last := |fields| - 1;
    if i < last {
      assert Names(fields[..last]) == Names(fields)[..last];
      FieldMapAt(fields[..last], i);
      assert Before(Names(fields)[i], Names(fields)[last]);
      BeforeIsTotal(fields[last].name, fields[last].name);
    }
  }

  ghost predicate Holds(m: map<Text, Clarity.Value>, fields: seq<Field>)
  {
    forall i :: 0 <= i < |fields| ==> fields[i].name in m && m[fields[i].name] == fields[i].value
  }

  lemma FieldMapHolds(fields: seq<Field>)
    requires Ascending(Names(fields))
    ensures FieldMap(fields).Keys == Members(Names(fields)) && Holds(FieldMap(fields), fields)
  {
    FieldMapKeys(fields);
    AllHold(FieldMap(fields), fields);
  }

  lemma AllHold(m: map<Text, Clarity.Value>, fields: seq<Field>)
    requires Ascending(Names(fields)) && m == FieldMap(fields)
    ensures Holds(m, fields)
  {
    forall i | 0 <= i < |fields|
      ensures fields[i].name in m && m[fields[i].name] == fields[i].value
    {
      FieldMapAt(fields, i);
    }
  }

  lemma {:induction false} FieldsAreWired(rules: Rules, v: Clarity.Value, fields: seq<Field>)
    requires v.Tuple?
    requires Holds(v.fields, fields)
    ensures WireFields(rules, v, Names(fields)) == FieldsBytes(rules, fields)
  {
    if fields != [] {
      assert Names(fields)[1..] == Names(fields[1..]);
      FieldsAreWired(rules, v, fields[1..]);
    }
  }

  lemma KeyOrder(m: map<Text, Clarity.Value>, fields: seq<Field>)
    requires Ascending(Names(fields)) && m.Keys == Members(Names(fields))
    ensures |m| == |fields| && Sorted(m.Keys) == Names(fields)
  {
    AscendingIsSorted(Names(fields));
    assert |m| == |m.Keys|;
  }

  /** A map that holds ascending fields is wired as those fields. */
  lemma TupleBytes(rules: Rules, m: map<Text, Clarity.Value>, fields: seq<Field>)
    requires |m| == |fields| && Sorted(m.Keys) == Names(fields)
    requires Holds(m, fields)
    ensures Wire(rules, Tuple(m)) == [12] + (Word32(|fields|) + FieldsBytes(rules, fields))
  {
    FieldsAreWired(rules, Tuple(m), fields);
  }

  /** A tuple's fields in key order. */
  function FieldsOf(v: Clarity.Value, names: seq<Text>): (fields: seq<Field>)
    requires v.Tuple? && forall i :: 0 <= i < |names| ==> names[i] in v.fields
    ensures |fields| == |names|
    ensures forall i :: 0 <= i < |names| ==> fields[i] == Field(names[i], v.fields[names[i]])
  {
    seq(|names|, i requires 0 <= i < |names| => Field(names[i], v.fields[names[i]]))
  }

  lemma TupleOfFields(v: Clarity.Value)
    requires v.Tuple?
    ensures var fields := FieldsOf(v, Sorted(v.fields.Keys));
      Ascending(Names(fields)) && FieldMap(fields) == v.fields && Names(fields) == Sorted(v.fields.Keys)
  {
    var names := Sorted(v.fields.Keys);
    var fields := FieldsOf(v, names);
    SortedAscends(v.fields.Keys);
    assert Names(fields) == names;
    FieldMapHolds(fields);
    SameMap(FieldMap(fields), fields, v.fields);
  }

  /** A map is known by its fields. */
  lemma SameMap(m: map<Text, Clarity.Value>, fields: seq<Field>, n: map<Text, Clarity.Value>)
    requires Holds(m, fields) && Holds(n, fields) && m.Keys == Members(Names(fields)) && n.Keys == Members(Names(fields))
    ensures m == n
  {
    forall k | k in m
      ensures k in n && m[k] == n[k]
    {
      assert k in Members(Names(fields));
      var i :| 0 <= i < |fields| && Names(fields)[i] == k;
      assert fields[i].name == k;
    }
  }

  // ---------------------------------------------------------------------------
  // Everything that decodes is the encoding of what it decodes to

  ghost predicate Encodes(rules: Rules, raw: seq<Byte>, v: Clarity.Value, rest: seq<Byte>, levels: int)
  {
    Encodable(rules, v, levels) && raw == Wire(rules, v) + rest
  }

  lemma LeafSound(rules: Rules, tag: Byte, body: seq<Byte>, v: Clarity.Value, rest: seq<Byte>, levels: int)
    requires Faithful(rules)
    requires 1 <= levels && ParseLeaf(rules, tag, body) == Parsed(v, rest)
    ensures Encodes(rules, [tag] + body, v, rest, levels)
  {
    if tag == 0 || tag == 1 {
      NumberSound(rules, tag == 0, body, v, rest, levels);
    } else if tag == 2 {
      DataExact(body, v.bytes, rest);
      Assoc([tag], DataBytes(v.bytes), rest);
    } else if tag == 5 || tag == 6 {
      PrincipalSound(rules, tag == 6, body, v, rest, levels);
    } else if tag == 13 || tag == 14 {
      CharsSound(rules, tag == 13, body, v, rest, levels);
    }
  }

  lemma NumberSound(rules: Rules, signed: bool, body: seq<Byte>, v: Clarity.Value, rest: seq<Byte>, levels: int)
    requires 1 <= levels && ParseInteger(signed, body) == Parsed(v, rest)
    ensures Encodes(rules, [if signed then 0 else 1] + body, v, rest, levels)
  {
    IntegerExact(signed, body, v.n.value, rest);
    Assoc([if signed then 0 else 1], IntegerBytes(v.n.value), rest);
  }

  lemma PrincipalSound(rules: Rules, contract: bool, body: seq<Byte>, v: Clarity.Value, rest: seq<Byte>, levels: int)
    requires Faithful(rules) && 1 <= levels && ParseParty(rules, contract, body) == Parsed(v, rest)
    ensures Encodes(rules, [if contract then 6 else 5] + body, v, rest, levels)
  {
    assert v.Principal? && v.contract == contract;
    PartySound(rules, contract, body, v.text, rest);
    Assoc([if contract then 6 else 5], PartyBytes(contract, PartyOf(rules, contract, v.text).value), rest);
  }

  lemma CharsSound(rules: Rules, ascii: bool, body: seq<Byte>, v: Clarity.Value, rest: seq<Byte>, levels: int)
    requires 1 <= levels && ParseChars(rules, ascii, body) == Parsed(v, rest)
    ensures Encodes(rules, [if ascii then 13 else 14] + body, v, rest, levels)
  {
    assert v.Chars? && v.ascii == ascii;
    CharsExact(rules, ascii, body, v.text, rest);
    Assoc([if ascii then 13 else 14], DataBytes(v.text), rest);
  }

  lemma {:induction false} ValueSound(rules: Rules, raw: seq<Byte>, levels: int, v: Clarity.Value, rest: seq<Byte>)
    requires Faithful(rules)
    requires ParseValue(rules, raw, levels) == Parsed(v, rest)
    ensures Encodes(rules, raw, v, rest, levels)
    decreases |raw|, 0, 0
  {
    var tag, body := raw[0], raw[1..];
    assert raw == [tag] + body;
    if WrapperOf(tag).Some? {
      ValueSound(rules, body, levels - 1, v.items[0], rest);
      WrapperSound(rules, tag, body, v.items[0], rest, levels);
    } else if tag == 11 {
      ListSound(rules, body, levels, v, rest);
    } else if tag == 12 {
      TupleSound(rules, body, levels, v, rest);
    } else {
      LeafSound(rules, tag, body, v, rest, levels);
    }
  }

  lemma WrapperSound(rules: Rules, tag: Byte, body: seq<Byte>, child: Clarity.Value, rest: seq<Byte>, levels: int)
    requires WrapperOf(tag).Some? && 1 <= levels && Encodes(rules, body, child, rest, levels - 1)
    ensures Encodes(rules, [tag] + body, Wrapped(WrapperOf(tag).value, [child]), rest, levels)
  {
    OneItem(rules, child);
    Assoc([tag], Wire(rules, child), rest);
  }

  lemma OneItem(rules: Rules, child: Clarity.Value)
    ensures WireItems(rules, [child]) == Wire(rules, child)
  {
    assert [child][1..] == [];
    assert WireItems(rules, [child]) == Wire(rules, child) + [];
  }

  lemma {:induction false} ListSound(rules: Rules, raw: seq<Byte>, levels: int, v: Clarity.Value, rest: seq<Byte>)
    requires Faithful(rules)
    requires 1 <= levels && ParseList(rules, raw, levels) == Parsed(v, rest)
    ensures Encodes(rules, [11] + raw, v, rest, levels)
    decreases |raw|, 2, 0
  {
    match ParseCount(raw) {
      case Parsed(n, after) =>
        CountExact(raw, n, after);
        ItemsSound(rules, after, n, levels - 1, v.items, rest);
        Regroup([11], Word32(n), WireItems(rules, v.items), rest);
    }
  }

  lemma Regroup(a: seq<Byte>, b: seq<Byte>, c: seq<Byte>, d: seq<Byte>)
    ensures a + (b + (c + d)) == (a + (b + c)) + d
  {
  }

  lemma {:induction false} ItemsSound(
    rules: Rules, raw: seq<Byte>, n: nat, levels: int, items: seq<Clarity.Value>, rest: seq<Byte>)
    requires Faithful(rules)
    requires ParseItems(rules, raw, n, levels) == Parsed(items, rest)
    ensures |items| == n && raw == WireItems(rules, items) + rest
    ensures forall i :: 0 <= i < |items| ==> Encodable(rules, items[i], levels)
    decreases |raw|, 1, n
  {
    if n == 0 {
      assert raw == [] + raw;
    } else {
      match ParseValue(rules, raw, levels) {
        case Parsed(head, after) =>
          ValueSound(rules, raw, levels, head, after);
          ItemsSound(rules, after, n - 1, levels, items[1..], rest);
          Assoc(Wire(rules, head), WireItems(rules, items[1..]), rest);
      }
    }
  }

  lemma {:induction false} TupleSound(rules: Rules, raw: seq<Byte>, levels: int, v: Clarity.Value, rest: seq<Byte>)
    requires Faithful(rules)
    requires 1 <= levels && ParseTuple(rules, raw, levels) == Parsed(v, rest)
    ensures Encodes(rules, [12] + raw, v, rest, levels)
    decreases |raw|, 2, 0
  {
    match ParseCount(raw) {
      case Parsed(n, after) =>
        CountExact(raw, n, after);
        FieldsMap(rules, after, n, levels, v.fields, rest);
    }
  }

  lemma {:induction false} FieldsMap(
    rules: Rules, raw: seq<Byte>, n: nat, levels: int, m: map<Text, Clarity.Value>, rest: seq<Byte>)
    requires Faithful(rules) && 1 <= levels && n <= MAX_UINT32
    requires var r := ParseFields(rules, raw, n, [], levels - 1);
      r.Parsed? && r.rest == rest && m == FieldMap(r.value)
    ensures Encodes(rules, [12] + (Word32(n) + raw), Tuple(m), rest, levels)
    decreases |raw|, 1, n + 1
  {
    var fields := ParseFields(rules, raw, n, [], levels - 1).value;
    FieldsSound(rules, raw, n, [], levels - 1, fields, rest);
    FieldMapHolds(fields);
    TupleHolds(rules, m, fields, rest, levels);
  }

  lemma TupleHolds(rules: Rules, m: map<Text, Clarity.Value>, fields: seq<Field>, rest: seq<Byte>, levels: int)
    requires Ascending(Names(fields)) && m.Keys == Members(Names(fields)) && |fields| <= MAX_UINT32 && 1 <= levels
    requires forall i :: 0 <= i < |fields| ==> FieldValid(rules, fields[i], levels - 1)
    requires Holds(m, fields)
    ensures Encodes(rules, [12] + (Word32(|fields|) + (FieldsBytes(rules, fields) + rest)), Tuple(m), rest, levels)
  {
    KeyOrder(m, fields);
    TupleBytes(rules, m, fields);
    Regroup([12], Word32(|fields|), FieldsBytes(rules, fields), rest);
    FieldsMakeTuple(rules, m, fields, levels);
  }

  lemma FieldsMakeTuple(rules: Rules, m: map<Text, Clarity.Value>, fields: seq<Field>, levels: int)
    requires m.Keys == Members(Names(fields)) && |m| == |fields| <= MAX_UINT32 && 1 <= levels
    requires forall i :: 0 <= i < |fields| ==> FieldValid(rules, fields[i], levels - 1)
    requires Holds(m, fields)
    ensures Encodable(rules, Tuple(m), levels)
  {
    forall k | k in m
      ensures ValidName(k) && Encodable(rules, m[k], levels - 1)
    {
      assert k in Members(Names(fields));
      var i :| 0 <= i < |fields| && Names(fields)[i] == k;
      assert FieldValid(rules, fields[i], levels - 1);
    }
  }

  ghost predicate FieldValid(rules: Rules, f: Field, levels: int)
  {
    ValidName(f.name) && Encodable(rules, f.value, levels)
  }

  ghost predicate AllAfter(previous: Text, fields: seq<Field>)
  {
    forall i :: 0 <= i < |fields| ==> Before(previous, fields[i].name)
  }

  /** Names read one after another ascend, all of them after the one before. */
  lemma {:induction false} FieldsSound(
    rules: Rules, raw: seq<Byte>, n: nat, previous: Text, levels: int, fields: seq<Field>, rest: seq<Byte>)
    requires Faithful(rules)
    requires ParseFields(rules, raw, n, previous, levels) == Parsed(fields, rest)
    ensures |fields| == n && raw == FieldsBytes(rules, fields) + rest
    ensures Ascending(Names(fields)) && AllAfter(previous, fields)
    ensures forall i :: 0 <= i < |fields| ==> FieldValid(rules, fields[i], levels)
    decreases |raw|, 1, n
  {
    if n == 0 {
      assert raw == [] + raw;
    } else {
      match ParseField(rules, raw, previous, levels) {
        case Parsed(head, after) =>
          FieldSound(rules, raw, previous, levels, head, after);
          FieldsSound(rules, after, n - 1, head.name, levels, fields[1..], rest);
          Assoc(FieldBytes(head.name, Wire(rules, head.value)), FieldsBytes(rules, fields[1..]), rest);
          NamesAscend(previous, fields);
      }
    }
  }

  lemma NamesAscend(previous: Text, fields: seq<Field>)
    requires fields != [] && Before(previous, fields[0].name)
    requires Ascending(Names(fields[1..])) && AllAfter(fields[0].name, fields[1..])
    ensures Ascending(Names(fields)) && AllAfter(previous, fields)
  {
    var tail := fields[1..];
    forall i | 0 <= i < |tail|
      ensures Before(previous, tail[i].name)
    {
      BeforeIsTransitive(previous, fields[0].name, tail[i].name);
    }
    forall i | 0 < i < |fields|
      ensures Names(fields)[i] == Names(tail)[i - 1] && fields[i] == tail[i - 1]
    {
    }
  }

  lemma {:induction false} FieldSound(
    rules: Rules, raw: seq<Byte>, previous: Text, levels: int, f: Field, rest: seq<Byte>)
    requires Faithful(rules)
    requires ParseField(rules, raw, previous, levels) == Parsed(f, rest)
    ensures raw == FieldBytes(f.name, Wire(rules, f.value)) + rest
    ensures Before(previous, f.name) && FieldValid(rules, f, levels)
    decreases |raw|, 0, 1
  {
    match ParseName(raw) {
      case Parsed(name, after) =>
        NameExact(raw, name, after);
        ValueSound(rules, after, levels, f.value, rest);
        Assoc(NameBytes(name), Wire(rules, f.value), rest);
    }
  }

  // ---------------------------------------------------------------------------
  // Every encoding decodes, whatever follows it

  lemma LeafComplete(rules: Rules, v: Clarity.Value, rest: seq<Byte>, levels: int)
    requires Faithful(rules)
    requires Encodable(rules, v, levels) && !v.Wrapped? && !v.List? && !v.Tuple?
    ensures Wire(rules, v)[0] !in [7, 8, 10, 11, 12]
    ensures ParseLeaf(rules, Wire(rules, v)[0], Wire(rules, v)[1..] + rest) == Parsed(v, rest)
  {
    var body := Wire(rules, v)[1..] + rest;
    match v {
      case Integer(signed, n) =>
        IntegerExact(signed, body, n.value, rest);
      case Buffer(bytes) =>
        DataExact(body, bytes, rest);
      case Simple(flag) =>
        assert body == rest;
      case Principal(contract, text) =>
        PartyComplete(rules, contract, text, rest);
      case Chars(ascii, text) =>
        CharsExact(rules, ascii, body, text, rest);
    }
  }

  lemma {:induction false} ValueComplete(rules: Rules, v: Clarity.Value, rest: seq<Byte>, levels: int)
    requires Faithful(rules)
    requires Encodable(rules, v, levels)
    ensures ParseValue(rules, Wire(rules, v) + rest, levels) == Parsed(v, rest)
    decreases v
  {
    match v {
      case Wrapped(w, items) =>
        ValueComplete(rules, items[0], rest, levels - 1);
        WrappedComplete(rules, w, items, rest, levels);
      case List(items) =>
        ItemsComplete(rules, items, rest, levels - 1);
        ListComplete(rules, items, rest, levels);
      case Tuple(fields) =>
        TupleCase(rules, v, rest, levels);
      case _ =>
        LeafParsed(rules, v, rest, levels);
    }
  }

  lemma {:induction false} TupleCase(rules: Rules, v: Clarity.Value, rest: seq<Byte>, levels: int)
    requires Faithful(rules) && v.Tuple? && Encodable(rules, v, levels)
    ensures ParseValue(rules, Wire(rules, v) + rest, levels) == Parsed(v, rest)
    decreases v, |v.fields| + 1
  {
    TupleNames(rules, v, levels);
    FieldsComplete(rules, v, Sorted(v.fields.Keys), [], rest, levels - 1);
    TupleComplete(rules, v, rest, levels);
  }

  lemma LeafParsed(rules: Rules, v: Clarity.Value, rest: seq<Byte>, levels: int)
    requires Faithful(rules)
    requires Encodable(rules, v, levels) && !v.Wrapped? && !v.List? && !v.Tuple?
    ensures ParseValue(rules, Wire(rules, v) + rest, levels) == Parsed(v, rest)
  {
    LeafComplete(rules, v, rest, levels);
    var b := Wire(rules, v);
    assert b == [b[0]] + b[1..];
    Tagged(b[0], b[1..], rest);
  }

  lemma Tagged(tag: Byte, body: seq<Byte>, rest: seq<Byte>)
    ensures (([tag] + body) + rest)[0] == tag && (([tag] + body) + rest)[1..] == body + rest
  {
  }

  lemma WrappedComplete(rules: Rules, w: Wrapper, items: seq<Clarity.Value>, rest: seq<Byte>, levels: int)
    requires |items| == 1 && 1 <= levels
    requires ParseValue(rules, Wire(rules, items[0]) + rest, levels - 1) == Parsed(items[0], rest)
    ensures ParseValue(rules, Wire(rules, Wrapped(w, items)) + rest, levels) == Parsed(Wrapped(w, items), rest)
  {
    assert items == [items[0]];
    OneItem(rules, items[0]);
    Tagged(WrapperTag(w), Wire(rules, items[0]), rest);
  }

  lemma ListComplete(rules: Rules, items: seq<Clarity.Value>, rest: seq<Byte>, levels: int)
    requires 1 <= levels && |items| <= MAX_UINT32
    requires ParseItems(rules, WireItems(rules, items) + rest, |items|, levels - 1) == Parsed(items, rest)
    ensures ParseValue(rules, Wire(rules, List(items)) + rest, levels) == Parsed(List(items), rest)
  {
    ListParsed(rules, items, WireItems(rules, items), rest, levels);
    ListDispatch(rules, Word32(|items|) + WireItems(rules, items), rest, levels, List(items));
  }

  lemma ListParsed(rules: Rules, items: seq<Clarity.Value>, body: seq<Byte>, rest: seq<Byte>, levels: int)
    requires |items| <= MAX_UINT32 && |items| <= |body|
    requires ParseItems(rules, body + rest, |items|, levels - 1) == Parsed(items, rest)
    ensures ParseList(rules, (Word32(|items|) + body) + rest, levels) == Parsed(List(items), rest)
  {
    Assoc(Word32(|items|), body, rest);
    CountExact(Word32(|items|) + (body + rest), |items|, body + rest);
  }

  lemma {:induction false} ItemsComplete(rules: Rules, items: seq<Clarity.Value>, rest: seq<Byte>, levels: int)
    requires Faithful(rules)
    requires forall i :: 0 <= i < |items| ==> Encodable(rules, items[i], levels)
    ensures ParseItems(rules, WireItems(rules, items) + rest, |items|, levels) == Parsed(items, rest)
    decreases items
  {
    if items == [] {
      assert [] + rest == rest;
    } else {
      ValueComplete(rules, items[0], WireItems(rules, items[1..]) + rest, levels);
      ItemsComplete(rules, items[1..], rest, levels);
      FirstThenRest(rules, items, rest, levels);
    }
  }

  lemma FirstThenRest(rules: Rules, items: seq<Clarity.Value>, rest: seq<Byte>, levels: int)
    requires items != []
    requires var more := WireItems(rules, items[1..]) + rest;
      && ParseValue(rules, Wire(rules, items[0]) + more, levels) == Parsed(items[0], more)
      && ParseItems(rules, more, |items| - 1, levels) == Parsed(items[1..], rest)
    ensures ParseItems(rules, WireItems(rules, items) + rest, |items|, levels) == Parsed(items, rest)
  {
    Assoc(Wire(rules, items[0]), WireItems(rules, items[1..]), rest);
    assert items == [items[0]] + items[1..];
  }

  lemma TupleNames(rules: Rules, v: Clarity.Value, levels: int)
    requires v.Tuple? && Encodable(rules, v, levels)
    ensures var names := Sorted(v.fields.Keys);
      && Ascending(names) && NamesValid(rules, v, names, levels - 1)
      && (names != [] ==> Before([], names[0])) && |names| == |v.fields|
  {
    SortedAscends(v.fields.Keys);
    assert |v.fields| == |v.fields.Keys|;
  }

  lemma TupleComplete(rules: Rules, v: Clarity.Value, rest: seq<Byte>, levels: int)
    requires 1 <= levels && v.Tuple? && |v.fields| <= MAX_UINT32 && forall k :: k in v.fields ==> ValidName(k)
    requires ParseFields(rules, WireFields(rules, v, Sorted(v.fields.Keys)) + rest, |v.fields|, [], levels - 1) ==
             Parsed(FieldsOf(v, Sorted(v.fields.Keys)), rest)
    ensures ParseValue(rules, Wire(rules, v) + rest, levels) == Parsed(v, rest)
  {
    var names := Sorted(v.fields.Keys);
    var body := WireFields(rules, v, names);
    TupleOfFields(v);
    FieldsAreLong(rules, v, names);
    TupleParsed(rules, v.fields, body, FieldsOf(v, names), rest, levels);
    TupleDispatch(rules, Word32(|v.fields|) + body, rest, levels, v);
  }

  lemma TupleDispatch(rules: Rules, body: seq<Byte>, rest: seq<Byte>, levels: int, v: Clarity.Value)
    requires 1 <= levels && ParseTuple(rules, body + rest, levels) == Parsed(v, rest)
    ensures ParseValue(rules, ([12] + body) + rest, levels) == Parsed(v, rest)
  {
    Tagged(12, body, rest);
  }

  lemma ListDispatch(rules: Rules, body: seq<Byte>, rest: seq<Byte>, levels: int, v: Clarity.Value)
    requires 1 <= levels && ParseList(rules, body + rest, levels) == Parsed(v, rest)
    ensures ParseValue(rules, ([11] + body) + rest, levels) == Parsed(v, rest)
  {
    Tagged(11, body, rest);
  }

  lemma TupleParsed(
    rules: Rules, m: map<Text, Clarity.Value>, body: seq<Byte>, fields: seq<Field>, rest: seq<Byte>, levels: int)
    requires |m| <= MAX_UINT32 && 3 * |m| <= |body| && FieldMap(fields) == m
    requires ParseFields(rules, body + rest, |m|, [], levels - 1) == Parsed(fields, rest)
    ensures ParseTuple(rules, (Word32(|m|) + body) + rest, levels) == Parsed(Tuple(m), rest)
  {
    Assoc(Word32(|m|), body, rest);
    CountExact(Word32(|m|) + (body + rest), |m|, body + rest);
  }

  ghost predicate NamesValid(rules: Rules, v: Clarity.Value, names: seq<Text>, levels: int)
    requires v.Tuple?
  {
    forall i :: 0 <= i < |names| ==>
      names[i] in v.fields && ValidName(names[i]) && Encodable(rules, v.fields[names[i]], levels)
  }

  lemma {:induction false} FieldsComplete(
    rules: Rules, v: Clarity.Value, names: seq<Text>, previous: Text, rest: seq<Byte>, levels: int)
    requires Faithful(rules)
    requires v.Tuple? && Ascending(names) && NamesValid(rules, v, names, levels)
    requires names != [] ==> Before(previous, names[0])
    ensures ParseFields(rules, WireFields(rules, v, names) + rest, |names|, previous, levels) ==
            Parsed(FieldsOf(v, names), rest)
    decreases v, |names|
  {
    if names == [] {
      assert [] + rest == rest;
    } else {
      var name, child := names[0], v.fields[names[0]];
      var more := WireFields(rules, v, names[1..]) + rest;
      ValueComplete(rules, child, more, levels);
      FieldComplete(rules, name, child, previous, more, levels);
      Assoc(FieldBytes(name, Wire(rules, child)), WireFields(rules, v, names[1..]), rest);
      FieldsComplete(rules, v, names[1..], name, rest, levels);
      assert FieldsOf(v, names) == [Field(name, child)] + FieldsOf(v, names[1..]);
    }
  }

  lemma FieldComplete(rules: Rules, name: Text, child: Clarity.Value, previous: Text, more: seq<Byte>, levels: int)
    requires ValidName(name) && Before(previous, name)
    requires ParseValue(rules, Wire(rules, child) + more, levels) == Parsed(child, more)
    ensures ParseField(rules, FieldBytes(name, Wire(rules, child)) + more, previous, levels) == Parsed(Field(name, child), more)
  {
    Assoc(NameBytes(name), Wire(rules, child), more);
    NameExact(NameBytes(name) + (Wire(rules, child) + more), name, Wire(rules, child) + more);
  }

  // ---------------------------------------------------------------------------
  // Results

  /** A byte string decodes to a value exactly when it is that value's encoding within the limits. */
  lemma DecodingIsExact(rules: Rules, raw: seq<Byte>, l: Limits, v: Clarity.Value)
    requires Faithful(rules)
    ensures DecodeWithLimits(rules, raw, l) == Some(v) <==>
      LimitsValid(l) && |raw| <= l.maxBytes && Encodable(rules, v, l.maxDepth) && raw == Wire(rules, v)
  {
    assert Wire(rules, v) + [] == Wire(rules, v);
    if DecodeWithLimits(rules, raw, l) == Some(v) {
      ValueSound(rules, raw, l.maxDepth, v, []);
    }
    if Encodable(rules, v, l.maxDepth) {
      ValueComplete(rules, v, [], l.maxDepth);
    }
  }

  /** c32check addresses meet what the codec relies on, whatever the checksum. */
  lemma StandardRulesAreFaithful(sum: Checksum)
    ensures Faithful(StandardRules(sum))
  {
    var rules := StandardRules(sum);
    forall t: Text | rules.decode(t).Some?
      ensures AccountValid(rules.decode(t).value) && rules.encode(rules.decode(t).value) == Some(t)
    {
      DecodeIsExact(sum, t, DecodeAddress(sum, t).value);
    }
    forall a: Account | AccountValid(a)
      ensures rules.encode(a).Some? && rules.decode(rules.encode(a).value) == Some(a) && DOT !in rules.encode(a).value
    {
      EncodeThenDecode(sum, a.version, a.hash);
      AddressesHaveNoDot(sum, a);
    }
  }

  lemma AddressesHaveNoDot(sum: Checksum, a: Account)
    requires a.version < 32
    ensures DOT !in EncodeAddress(sum, a.version, a.hash).value
  {
    var digits := TextDigits(Payload(sum, a.version, a.hash), 32);
    forall i | 0 <= i < |digits|
      ensures Spell(digits, C32)[i] != DOT
    {
      assert C32[digits[i]] in C32;
    }
  }

  /** Under the same limits encoding and decoding are inverse to each other, both ways. */
  lemma EncodeAndDecodeAreInverse(sum: Checksum, v: Clarity.Value, raw: seq<Byte>, l: Limits)
    ensures Encoded(StandardRules(sum), v, l) == Some(raw) <==> DecodeWithLimits(StandardRules(sum), raw, l) == Some(v)
  {
    StandardRulesAreFaithful(sum);
    DecodingIsExact(StandardRules(sum), raw, l, v);
  }

  /** No two values share an encoding. */
  lemma EncodingsAreUnique(sum: Checksum, v: Clarity.Value, w: Clarity.Value, l: Limits)
    ensures Encoded(StandardRules(sum), v, l).Some? && Encoded(StandardRules(sum), v, l) == Encoded(StandardRules(sum), w, l) ==> v == w
  {
    if Encoded(StandardRules(sum), v, l).Some? && Encoded(StandardRules(sum), v, l) == Encoded(StandardRules(sum), w, l) {
      var raw := Encoded(StandardRules(sum), v, l).value;
      EncodeAndDecodeAreInverse(sum, v, raw, l);
      EncodeAndDecodeAreInverse(sum, w, raw, l);
    }
  }
}
