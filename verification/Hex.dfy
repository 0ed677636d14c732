/**
 * Core reports hashes and accumulated work as 64 lower-case hexadecimal digits, and the control
 * runtime compares work as text. Text order agrees with numeric order on equally long digit strings.
 */
module Hex {

  const HASH_DIGITS := 64

  predicate HexDigit(c: char)
  {
    '0' <= c <= '9' || 'a' <= c <= 'f'
  }

  /** hashValid: the node's canonical unprefixed representation. */
  predicate HashValid(text: string)
  {
    |text| == HASH_DIGITS && forall i :: 0 <= i < |text| ==> HexDigit(text[i])
  }

  /** Go's string `<` on byte strings. */
  predicate TextLess(a: string, b: string)
  {
    if b == [] then false
    else if a == [] then true
    else a[0] < b[0] || (a[0] == b[0] && TextLess(a[1..], b[1..]))
  }

  function DigitValue(c: char): (v: nat)
    requires HexDigit(c)
    ensures v < 16
  {
    if '0' <= c <= '9' then (c - '0') as int else (c - 'a') as int + 10
  }

  function Power16(n: nat): (p: nat)
    ensures 0 < p
  {
    if n == 0 then 1 else 16 * Power16(n - 1)
  }

  /** The number a big-endian digit string denotes. */
  function Value(text: string): (v: nat)
    requires forall i :: 0 <= i < |text| ==> HexDigit(text[i])
  {
    if text == [] then 0 else DigitValue(text[0]) * Power16(|text| - 1) + Value(text[1..])
  }

  lemma LeadDecides(d: int, e: int, p: int, x: int, y: int)
    requires d < e && 0 <= x < p && 0 <= y < p
    ensures d * p + x < e * p + y
  {
    assert (d + 1) * p <= e * p;
  }

  lemma {:induction false} ValueBelowPower(text: string)
    requires forall i :: 0 <= i < |text| ==> HexDigit(text[i])
    ensures Value(text) < Power16(|text|)
  {
    if text != [] {
      ValueBelowPower(text[1..]);
      LeadDecides(DigitValue(text[0]), 16, Power16(|text| - 1), Value(text[1..]), 0);
    }
  }

  lemma DigitOrder(c: char, d: char)
    requires HexDigit(c) && HexDigit(d)
    ensures c < d <==> DigitValue(c) < DigitValue(d)
  {
  }

  /** On equally long digit strings the textual comparison is the numeric one, in both directions. */
  lemma {:induction false} TextOrderIsNumeric(a: string, b: string)
    requires |a| == |b|
    requires forall i :: 0 <= i < |a| ==> HexDigit(a[i])
    requires forall i :: 0 <= i < |b| ==> HexDigit(b[i])
    ensures TextLess(a, b) <==> Value(a) < Value(b)
  {
    if a != [] {
      var p := Power16(|a| - 1);
      var d, e := DigitValue(a[0]), DigitValue(b[0]);
      ValueBelowPower(a[1..]);
      ValueBelowPower(b[1..]);
      DigitOrder(a[0], b[0]);
      DigitOrder(b[0], a[0]);
      if d < e {
        LeadDecides(d, e, p, Value(a[1..]), Value(b[1..]));
      } else if e < d {
        LeadDecides(e, d, p, Value(b[1..]), Value(a[1..]));
      } else {
        TextOrderIsNumeric(a[1..], b[1..]);
      }
    }
  }
}
