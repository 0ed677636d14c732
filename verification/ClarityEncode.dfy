/**
 * The encoder: values are appended to a growing buffer with the limits checked along the way. Early and late
 * checks together accept exactly the well-formed values whose whole encoding fits.
 */
module ClarityEncode {
  import opened Common
  import opened Radix
  import opened Address
  import opened Clarity

  /** The result of appending a value: its bytes if it is well formed and they fit, nothing otherwise. */
  ghost predicate Appends(rules: Rules, b: seq<Byte>, v: Clarity.Value, l: Limits, levels: int, r: Option<seq<Byte>>)
  {
    && (r.Some? ==> Encodable(rules, v, levels) && r.value == b + Wire(rules, v) && |r.value| <= l.maxBytes)
    && (r.None? ==> !Encodable(rules, v, levels) || l.maxBytes < |b| + |Wire(rules, v)|)
  }

  // ---------------------------------------------------------------------------
  // Pieces

  ghost predicate AllEncodable(rules: Rules, items: seq<Clarity.Value>, levels: int)
  {
    forall i :: 0 <= i < |items| ==> Encodable(rules, items[i], levels)
  }

  lemma {:induction false} ItemsSplit(rules: Rules, items: seq<Clarity.Value>, i: nat)
    requires i <= |items|
    ensures WireItems(rules, items) == WireItems(rules, items[..i]) + WireItems(rules, items[i..])
  {
    if i == 0 {
      assert items[0..] == items && [] + WireItems(rules, items) == WireItems(rules, items);
    } else {
      ItemsSplit(rules, items[1..], i - 1);
      assert items[1..][..i - 1] == items[..i][1..] && items[1..][i - 1..] == items[i..];
      Assoc(Wire(rules, items[0]), WireItems(rules, items[..i][1..]), WireItems(rules, items[i..]));
    }
  }

  lemma ItemsStep(rules: Rules, items: seq<Clarity.Value>, i: nat)
    requires i < |items|
    ensures WireItems(rules, items[..i + 1]) == WireItems(rules, items[..i]) + Wire(rules, items[i])
    ensures |WireItems(rules, items[..i])| + |Wire(rules, items[i])| <= |WireItems(rules, items)|
  {
    ItemsSplit(rules, items[..i + 1], i);
    assert items[..i + 1][..i] == items[..i] && items[..i + 1][i..] == [items[i]];
    assert WireItems(rules, [items[i]]) == Wire(rules, items[i]) + [];
    ItemsSplit(rules, items, i + 1);
  }

  ghost predicate KeysIn(v: Clarity.Value, names: seq<Text>)
    requires v.Tuple?
  {
    forall i :: 0 <= i < |names| ==> names[i] in v.fields
  }

  ghost predicate NamedEncodable(rules: Rules, v: Clarity.Value, names: seq<Text>, levels: int)
    requires v.Tuple? && KeysIn(v, names)
  {
    forall i :: 0 <= i < |names| ==> Encodable(rules, v.fields[names[i]], levels)
  }

  lemma {:induction false} FieldsSplit(rules: Rules, v: Clarity.Value, names: seq<Text>, i: nat)
    requires v.Tuple? && KeysIn(v, names) && i <= |names|
    ensures WireFields(rules, v, names) == WireFields(rules, v, names[..i]) + WireFields(rules, v, names[i..])
  {
    if i == 0 {
      assert names[0..] == names && [] + WireFields(rules, v, names) == WireFields(rules, v, names);
    } else {
      FieldsSplit(rules, v, names[1..], i - 1);
      assert names[1..][..i - 1] == names[..i][1..] && names[1..][i - 1..] == names[i..];
      Assoc(FieldBytes(names[0], Wire(rules, v.fields[names[0]])),
        WireFields(rules, v, names[..i][1..]), WireFields(rules, v, names[i..]));
    }
  }

  lemma FieldsStep(rules: Rules, v: Clarity.Value, names: seq<Text>, i: nat)
    requires v.Tuple? && KeysIn(v, names) && i < |names|
    ensures var f := FieldBytes(names[i], Wire(rules, v.fields[names[i]]));
      && WireFields(rules, v, names[..i + 1]) == WireFields(rules, v, names[..i]) + f
      && |WireFields(rules, v, names[..i])| + |f| <= |WireFields(rules, v, names)|
  {
    FieldsSplit(rules, v, names[..i + 1], i);
    assert names[..i + 1][..i] == names[..i] && names[..i + 1][i..] == [names[i]];
    var f := FieldBytes(names[i], Wire(rules, v.fields[names[i]]));
    assert WireFields(rules, v, [names[i]]) == f + [];
    FieldsSplit(rules, v, names, i + 1);
  }

  // ---------------------------------------------------------------------------
  // Leaves

  /** The bytes behind the tag of a value without children, or nothing if it is malformed or too long. */
  method LeafBytes(rules: Rules, v: Clarity.Value, room: int) returns (r: Option<seq<Byte>>)
    requires !v.Wrapped? && !v.List? && !v.Tuple?
    ensures r.Some? ==> Encodable(rules, v, 1) && Wire(rules, v)[1..] == r.value
    ensures r.None? ==> !Encodable(rules, v, 1) || room < |Wire(rules, v)[1..]|
  {
    match v {
      case Integer(signed, n) =>
        if n.None? || !IntegerValid(signed, n.value) {
          return None;
        }
        return Some(IntegerBytes(n.value));
      case Buffer(bytes) =>
        r := AppendData(bytes, room);
      case Chars(ascii, text) =>
        if !CharsValid(rules, ascii, text) {
          return None;
        }
        r := AppendData(text, room);
      case Principal(contract, text) =>
        var party := PartyOf(rules, contract, text);
        if party.None? {
          return None;
        }
        return Some(PartyBytes(contract, party.value));
      case Simple(_) =>
        return Some([]);
      case Unsupported(_) =>
        return None;
    }
  }

  /** appendData: the length and the data, unless they exceed the wire's or the buffer's room. */
  method AppendData(data: seq<Byte>, room: int) returns (r: Option<seq<Byte>>)
    ensures r == if |data| <= MAX_UINT32 && |DataBytes(data)| <= room then Some(DataBytes(data)) else None
  {
    if |data| > MAX_UINT32 || |data| > room - 4 {
      return None;
    }
    return Some(DataBytes(data));
  }

  // ---------------------------------------------------------------------------
  // Values

  method AppendItems(rules: Rules, b: seq<Byte>, items: seq<Clarity.Value>, l: Limits, depth: int)
    returns (r: Option<seq<Byte>>)
    ensures r.Some? ==> AllEncodable(rules, items, l.maxDepth - depth) && r.value == b + WireItems(rules, items)
    ensures r.None? ==>
      !AllEncodable(rules, items, l.maxDepth - depth) || l.maxBytes < |b| + |WireItems(rules, items)|
    decreases items, 0
  {
    var out, i := b, 0;
    assert WireItems(rules, items[..0]) == [];
    while i < |items|
      invariant 0 <= i <= |items| && out == b + WireItems(rules, items[..i])
      invariant forall k :: 0 <= k < i ==> Encodable(rules, items[k], l.maxDepth - depth)
    {
      ItemsStep(rules, items, i);
      assert l.maxDepth - (depth + 1) + 1 == l.maxDepth - depth;
      var next := Append(rules, out, items[i], l, depth + 1);
      if next.None? {
        return None;
      }
      Assoc(b, WireItems(rules, items[..i]), Wire(rules, items[i]));
      out := next.value;
      i := i + 1;
    }
    assert items[..i] == items;
    return Some(out);
  }

  ghost predicate AppendsField(
    rules: Rules, b: seq<Byte>, name: Text, child: Clarity.Value, l: Limits, levels: int, r: Option<seq<Byte>>)
  {
    && (r.Some? ==> Encodable(rules, child, levels) && r.value == b + FieldBytes(name, Wire(rules, child)))
    && (r.None? ==> !Encodable(rules, child, levels) || l.maxBytes < |b| + |FieldBytes(name, Wire(rules, child))|)
  }

  lemma NameThenValue(
    rules: Rules, b: seq<Byte>, name: Text, child: Clarity.Value, l: Limits, levels: int, r: Option<seq<Byte>>)
    requires |name| < 256 && Appends(rules, b + ([|name|] + name), child, l, levels, r)
    ensures AppendsField(rules, b, name, child, l, levels, r)
  {
    Assoc(b, [|name|] + name, Wire(rules, child));
  }

  method AppendField(rules: Rules, b: seq<Byte>, v: Clarity.Value, name: Text, l: Limits, depth: int)
    returns (r: Option<seq<Byte>>)
    requires v.Tuple? && name in v.fields && ValidName(name)
    ensures AppendsField(rules, b, name, v.fields[name], l, l.maxDepth - depth, r)
    decreases v, 0
  {
    r := Append(rules, b + ([|name|] + name), v.fields[name], l, depth + 1);
    assert l.maxDepth - (depth + 1) + 1 == l.maxDepth - depth;
    NameThenValue(rules, b, name, v.fields[name], l, l.maxDepth - depth, r);
  }

  ghost predicate AppendsFields(
    rules: Rules, b: seq<Byte>, v: Clarity.Value, names: seq<Text>, l: Limits, levels: int, r: Option<seq<Byte>>)
    requires v.Tuple? && KeysIn(v, names)
  {
    && (r.Some? ==> NamedEncodable(rules, v, names, levels) && r.value == b + WireFields(rules, v, names))
    && (r.None? ==> !NamedEncodable(rules, v, names, levels) || l.maxBytes < |b| + |WireFields(rules, v, names)|)
  }

  method AppendFields(rules: Rules, b: seq<Byte>, v: Clarity.Value, names: seq<Text>, l: Limits, depth: int)
    returns (r: Option<seq<Byte>>)
    requires v.Tuple? && KeysIn(v, names)
    requires forall i :: 0 <= i < |names| ==> ValidName(names[i])
    ensures AppendsFields(rules, b, v, names, l, l.maxDepth - depth, r)
    decreases v, 1
  {
    var out, i := b, 0;
    while i < |names|
      invariant 0 <= i <= |names| && out == b + WireFields(rules, v, names[..i])
      invariant forall k :: 0 <= k < i ==> Encodable(rules, v.fields[names[k]], l.maxDepth - depth)
    {
      FieldsStep(rules, v, names, i);
      var next := AppendField(rules, out, v, names[i], l, depth);
      if next.None? {
        return None;
      }
      Assoc(b, WireFields(rules, v, names[..i]), FieldBytes(names[i], Wire(rules, v.fields[names[i]])));
      out := next.value;
      i := i + 1;
    }
    assert names[..i] == names;
    return Some(out);
  }

  /** The key loop: every name is checked before anything is written. */
  method NamesOf(v: Clarity.Value) returns (names: Option<seq<Text>>)
    requires v.Tuple?
    ensures names.Some? <==> forall k :: k in v.fields ==> ValidName(k)
    ensures names.Some? ==> names.value == Sorted(v.fields.Keys)
  {
    var sorted := Sorted(v.fields.Keys);
    KeysAreSorted(v.fields.Keys);
    var i := 0;
    while i < |sorted|
      invariant 0 <= i <= |sorted| && forall k :: 0 <= k < i ==> ValidName(sorted[k])
    {
      if !ValidName(sorted[i]) {
        return None;
      }
      i := i + 1;
    }
    return Some(sorted);
  }

  lemma {:induction false} KeysAreSorted(keys: set<Text>)
    ensures forall k :: k in keys ==> k in Sorted(keys)
  {
    if keys != {} {
      KeysAreSorted(keys - {Least(keys)});
    }
  }

  /** encode */
  method Append(rules: Rules, b: seq<Byte>, v: Clarity.Value, l: Limits, depth: int) returns (r: Option<seq<Byte>>)
    ensures Appends(rules, b, v, l, l.maxDepth - depth + 1, r)
    decreases v
  {
    if depth > l.maxDepth || |b| >= l.maxBytes {
      return None;
    }
    match v {
      case Wrapped(w, items) =>
        if |items| != 1 {
          return None;
        }
        assert items == [items[0]];
        assert WireItems(rules, items) == Wire(rules, items[0]) + [];
        r := Append(rules, b + [WrapperTag(w)], items[0], l, depth + 1);
        assert b + [WrapperTag(w)] + Wire(rules, items[0]) == b + Wire(rules, v);
      case List(items) =>
        r := AppendList(rules, b, items, l, depth);
      case Tuple(_) =>
        r := AppendTuple(rules, b, v, l, depth);
      case _ =>
        r := AppendLeaf(rules, b, v, l, depth);
    }
  }

  method AppendLeaf(rules: Rules, b: seq<Byte>, v: Clarity.Value, l: Limits, depth: int) returns (r: Option<seq<Byte>>)
    requires depth <= l.maxDepth && |b| < l.maxBytes && !v.Wrapped? && !v.List? && !v.Tuple?
    ensures Appends(rules, b, v, l, l.maxDepth - depth + 1, r)
  {
    var tag := TagOf(v);
    var out := b + [tag];
    var body := LeafBytes(rules, v, l.maxBytes - |out|);
    assert Wire(rules, v) == [tag] + Wire(rules, v)[1..];
    if body.None? {
      return None;
    }
    out := out + body.value;
    assert out == b + Wire(rules, v);
    if |out| > l.maxBytes {
      return None;
    }
    return Some(out);
  }

  function TagOf(v: Clarity.Value): (t: Byte)
    requires !v.Wrapped? && !v.List? && !v.Tuple?
    ensures forall rules: Rules :: Wire(rules, v)[0] == t
  {
    match v
    case Integer(signed, _) => if signed then 0 else 1
    case Buffer(_) => 2
    case Simple(flag) => FlagTag(flag)
    case Principal(contract, _) => if contract then 6 else 5
    case Chars(ascii, _) => if ascii then 13 else 14
    case Unsupported(tag) => tag
  }

  lemma ListWire(rules: Rules, b: seq<Byte>, items: seq<Clarity.Value>, below: nat)
    requires |items| <= MAX_UINT32
    ensures b + [11] + Word32(|items|) + WireItems(rules, items) == b + Wire(rules, List(items))
    ensures Encodable(rules, List(items), below + 1) <==> AllEncodable(rules, items, below)
  {
    Assoc(b + [11], Word32(|items|), WireItems(rules, items));
    Assoc(b, [11], Word32(|items|) + WireItems(rules, items));
  }

  method AppendList(rules: Rules, b: seq<Byte>, items: seq<Clarity.Value>, l: Limits, depth: int)
    returns (r: Option<seq<Byte>>)
    requires depth <= l.maxDepth && |b| < l.maxBytes
    ensures Appends(rules, b, List(items), l, l.maxDepth - depth + 1, r)
    decreases items, 1
  {
    if |items| > MAX_UINT32 || |items| > l.maxBytes {
      return None;
    }
    var head := b + [11] + Word32(|items|);
    ListWire(rules, b, items, l.maxDepth - depth);
    r := AppendItems(rules, head, items, l, depth);
    if r.Some? && |r.value| > l.maxBytes {
      r := None;
    }
  }

  lemma TupleEncodable(rules: Rules, v: Clarity.Value, levels: int, names: seq<Text>)
    requires 1 <= levels && v.Tuple? && |v.fields| <= MAX_UINT32 && names == Sorted(v.fields.Keys)
    requires forall k :: k in v.fields ==> ValidName(k)
    ensures KeysIn(v, names) && (forall i :: 0 <= i < |names| ==> ValidName(names[i]))
    ensures Encodable(rules, v, levels) <==> NamedEncodable(rules, v, names, levels - 1)
  {
    KeysAreSorted(v.fields.Keys);
    if NamedEncodable(rules, v, names, levels - 1) {
      forall k | k in v.fields
        ensures Encodable(rules, v.fields[k], levels - 1)
      {
        var i :| 0 <= i < |names| && names[i] == k;
      }
    }
  }

  lemma TupleWire(rules: Rules, b: seq<Byte>, v: Clarity.Value, names: seq<Text>)
    requires v.Tuple? && names == Sorted(v.fields.Keys) && KeysIn(v, names)
    requires forall i :: 0 <= i < |names| ==> ValidName(names[i])
    ensures b + [12] + Word32(|v.fields|) + WireFields(rules, v, names) == b + Wire(rules, v)
    ensures 3 * |v.fields| < |Wire(rules, v)|
  {
    FieldsAreLong(rules, v, names);
    assert |v.fields| == |v.fields.Keys|;
    Assoc(b + [12], Word32(|v.fields|), WireFields(rules, v, names));
    Assoc(b, [12], Word32(|v.fields|) + WireFields(rules, v, names));
  }

  /** The checks and the sorting before anything is appended. */
  method TupleNames(v: Clarity.Value, l: Limits) returns (names: Option<seq<Text>>)
    requires v.Tuple?
    ensures names.Some? <==>
      |v.fields| <= MAX_UINT32 && 3 * |v.fields| <= l.maxBytes && forall k :: k in v.fields ==> ValidName(k)
    ensures names.Some? ==> names.value == Sorted(v.fields.Keys)
  {
    if |v.fields| > MAX_UINT32 || |v.fields| > l.maxBytes / 3 {
      return None;
    }
    names := NamesOf(v);
  }

  lemma TupleRefused(rules: Rules, b: seq<Byte>, v: Clarity.Value, l: Limits, levels: int)
    requires v.Tuple?
    requires MAX_UINT32 < |v.fields| || l.maxBytes < 3 * |v.fields| || exists k :: k in v.fields && !ValidName(k)
    ensures Appends(rules, b, v, l, levels, None)
  {
    if Encodable(rules, v, levels) {
      var names := Sorted(v.fields.Keys);
      TupleEncodable(rules, v, levels, names);
      TupleWire(rules, b, v, names);
    }
  }

  /** The check after the loop: what grew too long is given up. */
  function Within(l: Limits, r: Option<seq<Byte>>): (q: Option<seq<Byte>>)
  {
    if r.Some? && l.maxBytes < |r.value| then None else r
  }

  lemma TupleAppended(
    rules: Rules, b: seq<Byte>, v: Clarity.Value, l: Limits, below: nat, names: seq<Text>, r: Option<seq<Byte>>)
    requires v.Tuple? && |v.fields| <= MAX_UINT32 && names == Sorted(v.fields.Keys)
    requires forall k :: k in v.fields ==> ValidName(k)
    requires KeysIn(v, names) && AppendsFields(rules, b + [12] + Word32(|v.fields|), v, names, l, below, r)
    ensures Appends(rules, b, v, l, below + 1, Within(l, r))
  {
    TupleEncodable(rules, v, below + 1, names);
    TupleWire(rules, b, v, names);
  }

  lemma SortedNames(v: Clarity.Value, names: seq<Text>)
    requires v.Tuple? && names == Sorted(v.fields.Keys) && forall k :: k in v.fields ==> ValidName(k)
    ensures KeysIn(v, names) && forall i :: 0 <= i < |names| ==> ValidName(names[i])
  {
  }

  method AppendSorted(rules: Rules, b: seq<Byte>, v: Clarity.Value, names: seq<Text>, l: Limits, depth: int)
    returns (r: Option<seq<Byte>>)
    requires depth <= l.maxDepth && v.Tuple? && |v.fields| <= MAX_UINT32 && names == Sorted(v.fields.Keys)
    requires forall k :: k in v.fields ==> ValidName(k)
    ensures Appends(rules, b, v, l, l.maxDepth - depth + 1, r)
    decreases v, 2
  {
    SortedNames(v, names);
    var head := b + [12] + Word32(|v.fields|);
    var below: nat := l.maxDepth - depth;
    var appended := AppendFields(rules, head, v, names, l, depth);
    TupleAppended(rules, b, v, l, below, names, appended);
    r := Within(l, appended);
  }

  method AppendTuple(rules: Rules, b: seq<Byte>, v: Clarity.Value, l: Limits, depth: int) returns (r: Option<seq<Byte>>)
    requires depth <= l.maxDepth && |b| < l.maxBytes && v.Tuple?
    ensures Appends(rules, b, v, l, l.maxDepth - depth + 1, r)
    decreases v, 3
  {
    var names := TupleNames(v, l);
    if names.None? {
      TupleRefused(rules, b, v, l, l.maxDepth - depth + 1);
      return None;
    }
    r := AppendSorted(rules, b, v, names.value, l, depth);
  }

  method EncodeUnder(rules: Rules, v: Clarity.Value, l: Limits) returns (r: Option<seq<Byte>>)
    ensures r == Encoded(rules, v, l)
  {
    if !LimitsValid(l) {
      return None;
    }
    r := Append(rules, [], v, l, 1);
    assert [] + Wire(rules, v) == Wire(rules, v);
  }

  /** EncodeWithLimits */
  method EncodeWithLimits(sum: Checksum, v: Clarity.Value, l: Limits) returns (r: Option<seq<Byte>>)
    ensures r == Encoded(StandardRules(sum), v, l)
  {
    r := EncodeUnder(StandardRules(sum), v, l);
  }
}
