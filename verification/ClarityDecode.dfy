/** The decoder: what it reads off the front of the unread bytes, and the object that consumes them in place. */
module ClarityDecode {
  import opened Common
  import opened Radix
  import opened Address
  import opened Clarity

  datatype Parsed<+T> = Failed | Parsed(value: T, rest: seq<Byte>)

  datatype Field = Field(name: Text, value: Value)

  // ---------------------------------------------------------------------------
  // What is read

  function ParseCount(raw: seq<Byte>): (r: Parsed<nat>)
    ensures r.Parsed? ==> |r.rest| + 4 == |raw| && r.value <= |r.rest|
  {
    if |raw| < 4 then Failed
    else
      var n := Radix.Value(raw[..4], 256);
      if |raw| - 4 < n then Failed else Parsed(n, raw[4..])
  }

  function ParseData(raw: seq<Byte>): (r: Parsed<seq<Byte>>)
    ensures r.Parsed? ==> |r.rest| < |raw|
  {
    match ParseCount(raw)
    case Failed => Failed
    case Parsed(n, rest) => Parsed(rest[..n], rest[n..])
  }

  function ParseName(raw: seq<Byte>): (r: Parsed<Text>)
    ensures r.Parsed? ==> |r.rest| < |raw|
  {
    if raw == [] || |raw| - 1 < raw[0] then Failed
    else
      var name := raw[1..1 + raw[0]];
      if ValidName(name) then Parsed(name, raw[1 + raw[0]..]) else Failed
  }

  function ParseInteger(signed: bool, raw: seq<Byte>): (r: Parsed<Clarity.Value>)
    ensures r.Parsed? ==> |r.rest| < |raw|
  {
    if |raw| < 16 then Failed
    else
      var n := Radix.Value(raw[..16], 256);
      Parsed(Integer(signed, Some(if signed && 128 <= raw[0] then n - TWO_128 else n)), raw[16..])
  }

  function ParseChars(rules: Rules, ascii: bool, raw: seq<Byte>): (r: Parsed<Clarity.Value>)
    ensures r.Parsed? ==> |r.rest| < |raw|
  {
    match ParseData(raw)
    case Failed => Failed
    case Parsed(text, rest) => if CharsValid(rules, ascii, text) then Parsed(Chars(ascii, text), rest) else Failed
  }

  function ParseParty(rules: Rules, contract: bool, raw: seq<Byte>): (r: Parsed<Clarity.Value>)
    ensures r.Parsed? ==> |r.rest| < |raw|
  {
    if |raw| < 21 then Failed
    else
      match rules.encode(Account(raw[0], raw[1..21]))
      case None => Failed
      case Some(address) =>
        if !contract then Parsed(Principal(false, address), raw[21..])
        else
          match ParseName(raw[21..])
          case Failed => Failed
          case Parsed(name, rest) =>
            if ValidContractName(name) then Parsed(Principal(true, address + ([DOT] + name)), rest) else Failed
  }

  function FlagOf(tag: Byte): (f: Option<Flag>)
  {
    if tag == 3 then Some(FlagTrue) else if tag == 4 then Some(FlagFalse) else if tag == 9 then Some(FlagNone) else None
  }

  function WrapperOf(tag: Byte): (w: Option<Wrapper>)
  {
    if tag == 7 then Some(WrapOk) else if tag == 8 then Some(WrapErr) else if tag == 10 then Some(WrapSome) else None
  }

  /** The value types without children. */
  function ParseLeaf(rules: Rules, tag: Byte, raw: seq<Byte>): (r: Parsed<Clarity.Value>)
    ensures r.Parsed? ==> |r.rest| <= |raw|
  {
    if tag == 0 || tag == 1 then ParseInteger(tag == 0, raw)
    else if tag == 2 then
      match ParseData(raw)
      case Failed => Failed
      case Parsed(bytes, rest) => Parsed(Buffer(bytes), rest)
    else if tag == 5 || tag == 6 then ParseParty(rules, tag == 6, raw)
    else if tag == 13 || tag == 14 then ParseChars(rules, tag == 13, raw)
    else
      match FlagOf(tag)
      case Some(f) => Parsed(Simple(f), raw)
      case None => Failed
  }

  /** decoder.value with so many levels left. */
  function ParseValue(rules: Rules, raw: seq<Byte>, levels: int): (r: Parsed<Clarity.Value>)
    ensures r.Parsed? ==> |r.rest| < |raw|
    decreases |raw|, 0, 0
  {
    if levels < 1 || raw == [] then Failed
    else
      var tag, body := raw[0], raw[1..];
      if WrapperOf(tag).Some? then
        match ParseValue(rules, body, levels - 1)
        case Failed => Failed
        case Parsed(child, rest) => Parsed(Wrapped(WrapperOf(tag).value, [child]), rest)
      else if tag == 11 then ParseList(rules, body, levels)
      else if tag == 12 then ParseTuple(rules, body, levels)
      else ParseLeaf(rules, tag, body)
  }

  function ParseList(rules: Rules, raw: seq<Byte>, levels: int): (r: Parsed<Clarity.Value>)
    ensures r.Parsed? ==> |r.rest| < |raw|
    decreases |raw|, 2, 0
  {
    match ParseCount(raw)
    case Failed => Failed
    case Parsed(n, rest) =>
      match ParseItems(rules, rest, n, levels - 1)
      case Failed => Failed
      case Parsed(items, rest2) => Parsed(List(items), rest2)
  }

  function ParseTuple(rules: Rules, raw: seq<Byte>, levels: int): (r: Parsed<Clarity.Value>)
    ensures r.Parsed? ==> |r.rest| < |raw|
    decreases |raw|, 2, 0
  {
    match ParseCount(raw)
    case Failed => Failed
    case Parsed(n, rest) =>
      if |rest| / 3 < n then Failed
      else
        match ParseFields(rules, rest, n, [], levels - 1)
        case Failed => Failed
        case Parsed(fields, rest2) => Parsed(Tuple(FieldMap(fields)), rest2)
  }

  function ParseItems(rules: Rules, raw: seq<Byte>, n: nat, levels: int): (r: Parsed<seq<Clarity.Value>>)
    ensures r.Parsed? ==> |r.rest| <= |raw| && |r.value| == n
    decreases |raw|, 1, n
  {
    if n == 0 then Parsed([], raw)
    else
      match ParseValue(rules, raw, levels)
      case Failed => Failed
      case Parsed(head, rest) =>
        match ParseItems(rules, rest, n - 1, levels)
        case Failed => Failed
        case Parsed(tail, rest2) => Parsed([head] + tail, rest2)
  }

  /** One name and its value, the name after the previous one. */
  function ParseField(rules: Rules, raw: seq<Byte>, previous: Text, levels: int): (r: Parsed<Field>)
    ensures r.Parsed? ==> |r.rest| < |raw|
    decreases |raw|, 0, 1
  {
    match ParseName(raw)
    case Failed => Failed
    case Parsed(name, rest) =>
      if !Before(previous, name) then Failed
      else
        match ParseValue(rules, rest, levels)
        case Failed => Failed
        case Parsed(child, rest2) => Parsed(Field(name, child), rest2)
  }

  function ParseFields(rules: Rules, raw: seq<Byte>, n: nat, previous: Text, levels: int): (r: Parsed<seq<Field>>)
    ensures r.Parsed? ==> |r.rest| <= |raw| && |r.value| == n
    decreases |raw|, 1, n
  {
    if n == 0 then Parsed([], raw)
    else
      match ParseField(rules, raw, previous, levels)
      case Failed => Failed
      case Parsed(head, rest) =>
        match ParseFields(rules, rest, n - 1, head.name, levels)
        case Failed => Failed
        case Parsed(tail, rest2) => Parsed([head] + tail, rest2)
  }

  /** The map the fields are assigned into, in order. */
  function FieldMap(fields: seq<Field>): (m: map<Text, Clarity.Value>)
  {
    if fields == [] then map[]
    else FieldMap(fields[..|fields| - 1])[fields[|fields| - 1].name := fields[|fields| - 1].value]
  }

  function DecodeWithLimits(rules: Rules, raw: seq<Byte>, l: Limits): (r: Option<Clarity.Value>)
  {
    if !LimitsValid(l) || l.maxBytes < |raw| then None
    else
      match ParseValue(rules, raw, l.maxDepth)
      case Failed => None
      case Parsed(v, rest) => if rest == [] then Some(v) else None
  }

  // ---------------------------------------------------------------------------
  // The object that reads it

  /** What a call that read from `before` and left `raw` unread must have returned. */
  predicate Reads<T(==)>(r: Option<T>, raw: seq<Byte>, expected: Parsed<T>)
  {
    if r.None? then expected.Failed? else expected == Parsed(r.value, raw)
  }

  /** Items after some were read, put behind those already read. */
  function Resume<T>(done: seq<T>, more: Parsed<seq<T>>): (r: Parsed<seq<T>>)
  {
    match more
    case Failed => Failed
    case Parsed(rest, raw) => Parsed(done + rest, raw)
  }

  lemma ResumeFromNothing<T>(all: Parsed<seq<T>>)
    ensures Resume([], all) == all
  {
    if all.Parsed? {
      assert [] + all.value == all.value;
    }
  }

  lemma ItemStep(
    rules: Rules, raw: seq<Byte>, n: nat, levels: int, done: seq<Clarity.Value>, head: Clarity.Value, rest: seq<Byte>)
    requires 0 < n && ParseValue(rules, raw, levels) == Parsed(head, rest)
    ensures Resume(done, ParseItems(rules, raw, n, levels)) == Resume(done + [head], ParseItems(rules, rest, n - 1, levels))
  {
    var more := ParseItems(rules, rest, n - 1, levels);
    if more.Parsed? {
      assert done + ([head] + more.value) == (done + [head]) + more.value;
    }
  }

  lemma FieldStep(
    rules: Rules, raw: seq<Byte>, n: nat, previous: Text, levels: int, done: seq<Field>, head: Field, rest: seq<Byte>)
    requires 0 < n && ParseField(rules, raw, previous, levels) == Parsed(head, rest)
    ensures Resume(done, ParseFields(rules, raw, n, previous, levels)) ==
            Resume(done + [head], ParseFields(rules, rest, n - 1, head.name, levels))
    ensures FieldMap(done + [head]) == FieldMap(done)[head.name := head.value]
  {
    assert (done + [head])[..|done|] == done;
    var more := ParseFields(rules, rest, n - 1, head.name, levels);
    if more.Parsed? {
      assert done + ([head] + more.value) == (done + [head]) + more.value;
    }
  }

  lemma FieldFails(rules: Rules, raw: seq<Byte>, n: nat, previous: Text, levels: int, done: seq<Field>)
    requires 0 < n && ParseField(rules, raw, previous, levels).Failed?
    ensures Resume(done, ParseFields(rules, raw, n, previous, levels)).Failed?
  {
  }

  lemma FieldsEnd(rules: Rules, raw: seq<Byte>, previous: Text, levels: int, done: seq<Field>)
    ensures Resume(done, ParseFields(rules, raw, 0, previous, levels)) == Parsed(done, raw)
  {
    assert done + [] == done;
  }

  class Decoder {
    const rules: Rules
    const limits: Limits
    var raw: seq<Byte>

    constructor (rules: Rules, raw: seq<Byte>, limits: Limits)
      ensures this.raw == raw && this.rules == rules && this.limits == limits
    {
      this.rules, this.raw, this.limits := rules, raw, limits;
    }

    method Take(n: nat) returns (r: Option<seq<Byte>>)
      modifies this
      ensures r.None? <==> |old(raw)| < n
      ensures r.None? ==> raw == old(raw)
      ensures r.Some? ==> |r.value| == n && old(raw) == r.value + raw
    {
      if n > |raw| {
        return None;
      }
      r := Some(raw[..n]);
      raw := raw[n..];
    }

    method Count() returns (r: Option<nat>)
      modifies this
      ensures Reads(r, raw, ParseCount(old(raw)))
      ensures |raw| <= |old(raw)|
    {
      var b := Take(4);
      if b.None? {
        return None;
      }
      var n := Radix.Value(b.value, 256);
      assert old(raw)[..4] == b.value && old(raw)[4..] == raw;
      if n > |raw| {
        return None;
      }
      return Some(n);
    }

    method Name() returns (r: Option<Text>)
      modifies this
      ensures Reads(r, raw, ParseName(old(raw)))
      ensures |raw| <= |old(raw)|
    {
      var b := Take(1);
      if b.None? {
        return None;
      }
      ghost var after := raw;
      var name := Take(b.value[0]);
      if name.None? {
        return None;
      }
      assert old(raw)[1..1 + b.value[0]] == after[..b.value[0]] == name.value;
      if !ValidName(name.value) {
        return None;
      }
      assert old(raw)[1 + b.value[0]..] == raw;
      return name;
    }

    method Integers(signed: bool) returns (r: Option<Clarity.Value>)
      modifies this
      ensures Reads(r, raw, ParseInteger(signed, old(raw)))
      ensures |raw| <= |old(raw)|
    {
      var b := Take(16);
      if b.None? {
        return None;
      }
      assert old(raw)[..16] == b.value && old(raw)[16..] == raw;
      var n: int := Radix.Value(b.value, 256);
      if signed && b.value[0] >= 0x80 {
        n := n - TWO_128;
      }
      return Some(Integer(signed, Some(n)));
    }

    method Data() returns (r: Option<seq<Byte>>)
      modifies this
      ensures Reads(r, raw, ParseData(old(raw)))
      ensures |raw| <= |old(raw)|
    {
      var n := Count();
      if n.None? {
        return None;
      }
      ghost var after := raw;
      r := Take(n.value);
      assert after[..n.value] == r.value && after[n.value..] == raw;
    }

    method Strings(ascii: bool) returns (r: Option<Clarity.Value>)
      modifies this
      ensures Reads(r, raw, ParseChars(rules, ascii, old(raw)))
      ensures |raw| <= |old(raw)|
    {
      var text := Data();
      if text.None? || !rules.utf8(text.value) {
        return None;
      }
      if ascii {
        var i := 0;
        while i < |text.value|
          invariant 0 <= i <= |text.value| && forall k :: 0 <= k < i ==> text.value[k] <= 127
          modifies {}
        {
          if text.value[i] > 127 {
            return None;
          }
          i := i + 1;
        }
      }
      return Some(Chars(ascii, text.value));
    }

    method Parties(contract: bool) returns (r: Option<Clarity.Value>)
      modifies this
      ensures Reads(r, raw, ParseParty(rules, contract, old(raw)))
      ensures |raw| <= |old(raw)|
    {
      var b := Take(21);
      if b.None? {
        return None;
      }
      assert old(raw)[1..21] == b.value[1..] && old(raw)[21..] == raw;
      var address := rules.encode(Account(b.value[0], b.value[1..]));
      if address.None? {
        return None;
      }
      if !contract {
        return Some(Principal(false, address.value));
      }
      var name := Name();
      if name.None? {
        return None;
      }
      var ok := CheckContractName(name.value);
      if !ok {
        return None;
      }
      return Some(Principal(true, address.value + ([DOT] + name.value)));
    }

    method Leaf(tag: Byte) returns (r: Option<Clarity.Value>)
      modifies this
      ensures Reads(r, raw, ParseLeaf(rules, tag, old(raw)))
      ensures |raw| <= |old(raw)|
    {
      if tag == 0 || tag == 1 {
        r := Integers(tag == 0);
      } else if tag == 2 {
        var bytes := Data();
        r := if bytes.None? then None else Some(Buffer(bytes.value));
      } else if tag == 5 || tag == 6 {
        r := Parties(tag == 6);
      } else if tag == 13 || tag == 14 {
        r := Strings(tag == 13);
      } else if FlagOf(tag).Some? {
        r := Some(Simple(FlagOf(tag).value));
      } else {
        r := None;
      }
    }

    method Items(depth: int) returns (r: Option<Clarity.Value>)
      modifies this
      ensures Reads(r, raw, ParseList(rules, old(raw), limits.maxDepth - depth + 1))
      ensures |raw| <= |old(raw)|
      decreases |raw|, 2
    {
      var n := Count();
      if n.None? {
        return None;
      }
      var items: seq<Clarity.Value>, i := [], 0;
      ghost var levels := limits.maxDepth - depth;
      ghost var all := ParseItems(rules, raw, n.value, levels);
      ResumeFromNothing(all);
      while i < n.value
        invariant 0 <= i <= n.value && |raw| < |old(raw)|
        invariant all == Resume(items, ParseItems(rules, raw, n.value - i, levels))
      {
        ghost var before := raw;
        var child := Value(depth + 1);
        if child.None? {
          return None;
        }
        ItemStep(rules, before, n.value - i, levels, items, child.value, raw);
        items := items + [child.value];
        i := i + 1;
      }
      assert items + [] == items;
      return Some(List(items));
    }

    method OneField(previous: Text, depth: int) returns (r: Option<Field>)
      modifies this
      ensures Reads(r, raw, ParseField(rules, old(raw), previous, limits.maxDepth - depth))
      ensures |raw| <= |old(raw)|
      decreases |raw|, 8
    {
      var name := Name();
      if name.None? || !Before(previous, name.value) {
        return None;
      }
      var child := Value(depth + 1);
      if child.None? {
        return None;
      }
      return Some(Field(name.value, child.value));
    }

    /** The loop that assigns n fields, each after the one before. */
    method AssignFields(n: nat, depth: int) returns (r: Option<map<Text, Clarity.Value>>, ghost done: seq<Field>)
      modifies this
      ensures ParseFields(rules, old(raw), n, [], limits.maxDepth - depth) == if r.None? then Failed else Parsed(done, raw)
      ensures r.Some? ==> r.value == FieldMap(done)
      ensures |raw| <= |old(raw)|
      decreases |raw|, 9
    {
      var fields: map<Text, Clarity.Value>, previous: Text, i := map[], [], 0;
      done := [];
      ghost var levels := limits.maxDepth - depth;
      ghost var all := ParseFields(rules, raw, n, [], levels);
      ResumeFromNothing(all);
      ghost var left := n;
      while i < n
        invariant 0 <= i <= n && |raw| <= |old(raw)|
        invariant fields == FieldMap(done)
        invariant left == n - i && all == Resume(done, ParseFields(rules, raw, left, previous, levels))
      {
        ghost var before := raw;
        var field := OneField(previous, depth);
        if field.None? {
          FieldFails(rules, before, left, previous, levels, done);
          return None, done;
        }
        var head := field.value;
        FieldStep(rules, before, left, previous, levels, done, head, raw);
        previous, i := head.name, i + 1;
        fields := fields[head.name := head.value];
        done, left := done + [head], left - 1;
      }
      FieldsEnd(rules, raw, previous, levels, done);
      return Some(fields), done;
    }

    method Fields(depth: int) returns (r: Option<Clarity.Value>)
      modifies this
      ensures Reads(r, raw, ParseTuple(rules, old(raw), limits.maxDepth - depth + 1))
      ensures |raw| <= |old(raw)|
      decreases |raw|, 10
    {
      var n := Count();
      if n.None? || n.value > |raw| / 3 {
        return None;
      }
      var fields, done := AssignFields(n.value, depth);
      if fields.None? {
        return None;
      }
      return Some(Tuple(fields.value));
    }

    /** decoder.value */
    method Value(depth: int) returns (r: Option<Clarity.Value>)
      modifies this
      ensures Reads(r, raw, ParseValue(rules, old(raw), limits.maxDepth - depth + 1))
      ensures |raw| <= |old(raw)|
      decreases |raw|, 7
    {
      if depth > limits.maxDepth {
        return None;
      }
      var head := Take(1);
      if head.None? {
        return None;
      }
      var tag := head.value[0];
      assert raw == old(raw)[1..];
      if WrapperOf(tag).Some? {
        var child := Value(depth + 1);
        r := if child.None? then None else Some(Wrapped(WrapperOf(tag).value, [child.value]));
      } else if tag == 11 {
        r := Items(depth);
      } else if tag == 12 {
        r := Fields(depth);
      } else {
        r := Leaf(tag);
      }
    }
  }

  method Decode(sum: Checksum, raw: seq<Byte>, l: Limits) returns (r: Option<Clarity.Value>)
    ensures r == DecodeWithLimits(StandardRules(sum), raw, l)
  {
    if !LimitsValid(l) || |raw| > l.maxBytes {
      return None;
    }
    var d := new Decoder(StandardRules(sum), raw, l);
    r := d.Value(1);
    if r.Some? && d.raw != [] {
      return None;
    }
  }
}
