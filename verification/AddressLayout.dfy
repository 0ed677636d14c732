/** What a c32check address looks like, letter by letter, said without the encoder. */
module AddressLayout {
  import opened Common
  import opened Radix
  import opened Address

  /** The digit a letter stands for: figures, then A to Z without I, L, O and U. */
  function LetterValue(c: Byte): (d: Option<nat>)
  {
    if 48 <= c <= 57 then Some(c - 48)
    else if 65 <= c <= 72 then Some(c - 55)
    else if 74 <= c <= 75 then Some(c - 56)
    else if 77 <= c <= 78 then Some(c - 57)
    else if 80 <= c <= 84 then Some(c - 58)
    else if 86 <= c <= 90 then Some(c - 59)
    else None
  }

  predicate Letters(t: Text)
  {
    forall i :: 0 <= i < |t| ==> LetterValue(t[i]).Some?
  }

  function LetterValues(t: Text): (ds: Digits)
    requires Letters(t)
    ensures |ds| == |t| && forall i :: 0 <= i < |t| ==> Some(ds[i]) == LetterValue(t[i])
  {
    seq(|t|, i requires 0 <= i < |t| => LetterValue(t[i]).value)
  }

  /** The first z bytes are x, and then comes another or nothing. */
  predicate Leads(s: Text, x: Byte, z: nat)
  {
    z <= |s| && (forall i :: 0 <= i < z ==> s[i] == x) && (z < |s| ==> s[z] != x)
  }

  /** The hash and its checksum over version and hash. */
  function Checked(sum: Checksum, version: Byte, hash: seq<Byte>): (p: seq<Byte>)
  {
    var w := sum([version] + hash);
    hash + [w.a, w.b, w.c, w.d]
  }

  /**
   * An S, the version's letter, and letters whose base-32 sum is the base-256 sum of hash and checksum, beginning with
   * one zero letter for each leading zero byte and no more.
   */
  ghost predicate Laid(sum: Checksum, version: Byte, hash: seq<Byte>, t: Text)
  {
    && 2 <= |t| && t[0] == 83 && LetterValue(t[1]) == Some(version)
    && Letters(t[2..]) && Positional(LetterValues(t[2..]), 32) == Positional(Checked(sum, version, hash), 256)
    && exists z: nat :: Leads(Checked(sum, version, hash), 0, z) && Leads(t[2..], 48, z)
  }

  lemma LetterOfDigit(d: nat)
    requires d < 32
    ensures LetterValue(C32[d]) == Some(d)
  {
    if d < 10 {
      assert forall k :: 0 <= k < 10 ==> C32[k] == 48 + k;
    } else if d < 18 {
      assert forall k :: 10 <= k < 18 ==> C32[k] == 55 + k;
    } else if d < 22 {
      assert C32[18] == 74 && C32[19] == 75 && C32[20] == 77 && C32[21] == 78;
    } else if d < 27 {
      assert forall k :: 22 <= k < 27 ==> C32[k] == 58 + k;
    } else {
      assert forall k :: 27 <= k < 32 ==> C32[k] == 59 + k;
    }
  }

  lemma DigitOfLetter(c: Byte)
    requires LetterValue(c).Some?
    ensures LetterValue(c).value < 32 && C32[LetterValue(c).value] == c
  {
    var d := LetterValue(c).value;
    assert d < 32;
    LetterOfDigit(d);
  }

  lemma SpellsItsValues(t: Text)
    requires Letters(t)
    ensures InBase(LetterValues(t), 32) && Spell(LetterValues(t), C32) == t
  {
    forall i | 0 <= i < |t|
      ensures LetterValues(t)[i] < 32 && C32[LetterValues(t)[i]] == t[i]
    {
      DigitOfLetter(t[i]);
    }
  }

  lemma ValuesOfSpelling(ds: Digits)
    requires InBase(ds, 32)
    ensures Letters(Spell(ds, C32)) && LetterValues(Spell(ds, C32)) == ds
  {
    forall i | 0 <= i < |ds|
      ensures LetterValue(Spell(ds, C32)[i]) == Some(ds[i])
    {
      LetterOfDigit(ds[i]);
    }
  }

  lemma {:induction false} LeadingZerosLead(b: seq<Byte>)
    ensures Leads(b, 0, LeadingZeros(b))
  {
    LeadingZerosSplit(b);
    var z := LeadingZeros(b);
    forall i | 0 <= i < z
      ensures b[i] == 0
    {
      assert b[i] == (Zeros(z) + b[z..])[i];
    }
  }

  lemma OneLead(s: Text, x: Byte, y: nat, z: nat)
    requires Leads(s, x, y) && Leads(s, x, z)
    ensures y == z
  {
  }

  /** The digits of a text are the leading zeros and the minimal digits of its number. */
  lemma {:induction false} DigitsByLead(ds: Digits, z: nat)
    requires InBase(ds, 32) && z <= |ds| && (forall i :: 0 <= i < z ==> ds[i] == 0) && (z < |ds| ==> ds[z] != 0)
    ensures ds == Zeros(z) + Minimal(Value(ds, 32), 32)
  {
    assert ds == Zeros(z) + ds[z..];
    ValueOfPadded(z, ds[z..], 32);
    MinimalOfValue(ds[z..], 32);
  }

  lemma TextLeads(b: seq<Byte>)
    ensures Leads(Encode(b, C32), 48, LeadingZeros(b))
  {
    var n := Value(b, 256);
    ValueOfMinimal(n, 32);
    var z, low := LeadingZeros(b), Minimal(n, 32);
    assert TextDigits(b, 32) == Zeros(z) + low;
    if low != [] {
      assert TextDigits(b, 32)[z] == low[0];
      LetterOfDigit(low[0]);
    } else {
      assert n == 0;
    }
  }

  lemma EncodingIsLaid(sum: Checksum, version: Byte, hash: seq<Byte>)
    requires version < 32
    ensures Laid(sum, version, hash, EncodeAddress(sum, version, hash).value)
  {
    var b, t := Payload(sum, version, hash), EncodeAddress(sum, version, hash).value;
    assert b == Checked(sum, version, hash) && t[2..] == Encode(b, C32);
    LetterOfDigit(version);
    var ds := TextDigits(b, 32);
    ValuesOfSpelling(ds);
    PositionalIsValue(ds, 32);
    PositionalIsValue(b, 256);
    ValueOfMinimal(Value(b, 256), 32);
    ValueOfPadded(LeadingZeros(b), Minimal(Value(b, 256), 32), 32);
    LeadingZerosLead(b);
    TextLeads(b);
  }

  /** Letters with a number and that many leading zeros are the number's text. */
  lemma LaidBody(b: seq<Byte>, body: Text, z: nat)
    requires Leads(b, 0, z) && Leads(body, 48, z)
    requires Letters(body) && Positional(LetterValues(body), 32) == Positional(b, 256)
    ensures Encode(b, C32) == body
  {
    LeadingZerosLead(b);
    OneLead(b, 0, z, LeadingZeros(b));
    var ds := LetterValues(body);
    SpellsItsValues(body);
    PositionalIsValue(ds, 32);
    PositionalIsValue(b, 256);
    ZerosLead(body, z);
    DigitsByLead(ds, z);
  }

  lemma ZerosLead(body: Text, z: nat)
    requires Letters(body) && Leads(body, 48, z)
    ensures var ds := LetterValues(body); (forall i :: 0 <= i < z ==> ds[i] == 0) && (z < |ds| ==> ds[z] != 0)
  {
  }

  lemma LaidIsEncoding(sum: Checksum, version: Byte, hash: seq<Byte>, t: Text)
    requires Laid(sum, version, hash, t)
    ensures EncodeAddress(sum, version, hash) == Some(t)
  {
    var b := Payload(sum, version, hash);
    assert b == Checked(sum, version, hash);
    var z: nat :| Leads(b, 0, z) && Leads(t[2..], 48, z);
    LaidBody(b, t[2..], z);
    DigitOfLetter(t[1]);
    assert t == [t[0], t[1]] + t[2..];
  }

  /** An account's encoding is the one text laid out for it. */
  lemma AddressesAreLaidOut(sum: Checksum, version: Byte, hash: seq<Byte>, t: Text)
    ensures EncodeAddress(sum, version, hash) == Some(t) <==> version < 32 && Laid(sum, version, hash, t)
  {
    if version < 32 {
      EncodingIsLaid(sum, version, hash);
      if Laid(sum, version, hash, t) {
        LaidIsEncoding(sum, version, hash, t);
      }
    }
  }

  /** An address is accepted exactly when it is laid out for the 20-byte account it decodes to. */
  lemma AcceptedAddressesAreLaidOut(sum: Checksum, t: Text, account: Account)
    ensures DecodeAddress(sum, t) == Some(account) <==>
      account.version < 32 && |account.hash| == 20 && Laid(sum, account.version, account.hash, t)
  {
    DecodeIsExact(sum, t, account);
    AddressesAreLaidOut(sum, account.version, account.hash, t);
  }
}
