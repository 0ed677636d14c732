/** Positional notation in any base, most significant digit first. */
module Radix {

  type Digits = seq<nat>

  ghost predicate InBase(ds: Digits, r: nat)
  {
    forall i :: 0 <= i < |ds| ==> ds[i] < r
  }

  function Value(ds: Digits, r: nat): (n: nat)
  {
    if ds == [] then 0 else Value(ds[..|ds| - 1], r) * r + ds[|ds| - 1]
  }

  /** The digits without leading zeros; zero has none. */
  function Minimal(n: nat, r: nat): (ds: Digits)
    requires 2 <= r
  {
    if n == 0 then [] else
      Shrinks(n, r);
      Minimal(n / r, r) + [n % r]
  }

  /** Exactly k digits, the higher ones cut off. */
  function Fixed(n: nat, k: nat, r: nat): (ds: Digits)
    requires 2 <= r
    ensures |ds| == k
  {
    if k == 0 then [] else Fixed(n / r, k - 1, r) + [n % r]
  }

  function Zeros(k: nat): (ds: Digits)
    ensures |ds| == k && forall i :: 0 <= i < k ==> ds[i] == 0
  {
    seq(k, i => 0)
  }

  function Pow(r: nat, k: nat): (n: nat)
  {
    if k == 0 then 1 else Pow(r, k - 1) * r
  }

  lemma Shrinks(n: nat, r: nat)
    requires 2 <= r && 0 < n
    ensures n / r < n
  {
    Parts(n, r);
    var q := n / r;
    if n <= q {
      var k := q - n;
      assert (n + k) * r == n * r + k * r;
      Ordered(1, r, 0, n);
    }
  }

  lemma Parts(n: nat, r: nat)
    requires 0 < r
    ensures n == n / r * r + n % r && n % r < r
  {
  }

  /** A higher quotient outweighs any remainder. */
  lemma Ordered(a: nat, b: nat, d: nat, r: nat)
    requires a < b && d < r
    ensures a * r + d < b * r
  {
    var k := b - a;
    assert (a + k) * r == a * r + k * r;
    AtLeast(k, r);
  }

  lemma AtLeast(k: nat, r: nat)
    requires 1 <= k
    ensures r <= k * r
  {
    assert k * r == (k - 1) * r + r;
  }

  /** Quotient and remainder are the only way to take a number apart. */
  lemma Unique(q: nat, d: nat, r: nat)
    requires d < r
    ensures (q * r + d) / r == q && (q * r + d) % r == d
  {
    var n := q * r + d;
    Parts(n, r);
    if n / r < q {
      Ordered(n / r, q, n % r, r);
    } else if q < n / r {
      Ordered(q, n / r, d, r);
    }
  }

  lemma {:induction false} ValueOfMinimal(n: nat, r: nat)
    requires 2 <= r
    ensures InBase(Minimal(n, r), r) && Value(Minimal(n, r), r) == n
    ensures 0 < n ==> Minimal(n, r) != [] && Minimal(n, r)[0] != 0
  {
    if n != 0 {
      Shrinks(n, r);
      ValueOfMinimal(n / r, r);
      var front := Minimal(n / r, r);
      assert Minimal(n, r)[..|front|] == front;
      Parts(n, r);
    }
  }

  lemma {:induction false} MinimalOfValue(ds: Digits, r: nat)
    requires 2 <= r && InBase(ds, r) && (ds != [] ==> ds[0] != 0)
    ensures Minimal(Value(ds, r), r) == ds
    ensures ds != [] ==> 0 < Value(ds, r)
  {
    if ds != [] {
      var front, last := ds[..|ds| - 1], ds[|ds| - 1];
      MinimalOfValue(front, r);
      Unique(Value(front, r), last, r);
      if front != [] {
        assert 0 < Value(front, r) * r;
      }
      assert ds == front + [last];
    }
  }

  lemma {:induction false} ValueOfPadded(k: nat, ds: Digits, r: nat)
    ensures Value(Zeros(k) + ds, r) == Value(ds, r)
  {
    if ds != [] {
      assert (Zeros(k) + ds)[..k + |ds| - 1] == Zeros(k) + ds[..|ds| - 1];
      ValueOfPadded(k, ds[..|ds| - 1], r);
    } else if k != 0 {
      assert (Zeros(k) + ds)[..k - 1] == Zeros(k - 1) + ds;
      ValueOfPadded(k - 1, ds, r);
    }
  }

  lemma {:induction false} FixedOfValue(ds: Digits, r: nat)
    requires 2 <= r && InBase(ds, r)
    ensures Fixed(Value(ds, r), |ds|, r) == ds
  {
    if ds != [] {
      var front, last := ds[..|ds| - 1], ds[|ds| - 1];
      FixedOfValue(front, r);
      Unique(Value(front, r), last, r);
      assert ds == front + [last];
    }
  }

  lemma {:induction false} ValueOfFixed(n: nat, k: nat, r: nat)
    requires 2 <= r && n < Pow(r, k)
    ensures InBase(Fixed(n, k, r), r) && Value(Fixed(n, k, r), r) == n
  {
    if k != 0 {
      QuotientBelow(n, k, r);
      ValueOfFixed(n / r, k - 1, r);
      var ds := Fixed(n, k, r);
      assert ds[..k - 1] == Fixed(n / r, k - 1, r) && ds[k - 1] == n % r;
      Parts(n, r);
      assert Value(ds, r) == n / r * r + n % r;
    }
  }

  lemma QuotientBelow(n: nat, k: nat, r: nat)
    requires 2 <= r && 0 < k
    ensures n < Pow(r, k) <==> n / r < Pow(r, k - 1)
  {
    var p := Pow(r, k - 1);
    Parts(n, r);
    if n / r < p {
      Ordered(n / r, p, n % r, r);
    } else if p < n / r {
      Ordered(p, n / r, 0, r);
    }
  }

  lemma {:induction false} MinimalLength(n: nat, k: nat, r: nat)
    requires 2 <= r
    ensures n < Pow(r, k) <==> |Minimal(n, r)| <= k
  {
    if n != 0 && k != 0 {
      Shrinks(n, r);
      QuotientBelow(n, k, r);
      MinimalLength(n / r, k - 1, r);
    } else if n == 0 {
      PowPositive(r, k);
    }
  }

  lemma {:induction false} PowPositive(r: nat, k: nat)
    requires 1 <= r
    ensures 1 <= Pow(r, k)
  {
    if k != 0 {
      PowPositive(r, k - 1);
      assert 1 <= Pow(r, k - 1) * r;
    }
  }

  /** Fixed-width digits are the minimal ones behind as many zeros as it takes. */
  lemma {:induction false} FixedIsPadded(n: nat, k: nat, r: nat)
    requires 2 <= r && |Minimal(n, r)| <= k
    ensures Fixed(n, k, r) == Zeros(k - |Minimal(n, r)|) + Minimal(n, r)
  {
    if n == 0 {
      FixedZero(k, r);
    } else {
      Shrinks(n, r);
      FixedIsPadded(n / r, k - 1, r);
    }
  }

  lemma {:induction false} FixedZero(k: nat, r: nat)
    requires 2 <= r
    ensures Fixed(0, k, r) == Zeros(k)
  {
    if k != 0 {
      assert 0 / r == 0 && 0 % r == 0;
      FixedZero(k - 1, r);
      assert Zeros(k) == Zeros(k - 1) + [0];
    }
  }

  lemma {:induction false} ValueBelow(ds: Digits, r: nat)
    requires InBase(ds, r)
    ensures Value(ds, r) < Pow(r, |ds|)
  {
    if ds != [] {
      var front := ds[..|ds| - 1];
      ValueBelow(front, r);
      Ordered(Value(front, r), Pow(r, |front|), ds[|front|], r);
    }
  }

  // ---------------------------------------------------------------------------
  // Digits by their places

  /** The sum of the digits, each weighed by the power of its place. */
  function Positional(ds: Digits, r: nat): (n: nat)
  {
    if ds == [] then 0 else ds[0] * Pow(r, |ds| - 1) + Positional(ds[1..], r)
  }

  lemma {:induction false} LeadDigit(ds: Digits, r: nat)
    requires ds != []
    ensures Value(ds, r) == ds[0] * Pow(r, |ds| - 1) + Value(ds[1..], r)
  {
    if |ds| == 1 {
      assert ds[..0] == [] && ds[1..] == [];
    } else {
      var front := ds[..|ds| - 1];
      LeadDigit(front, r);
      assert front[1..] == ds[1..][..|ds| - 2];
      Distribute(ds[0], Pow(r, |ds| - 2), Value(front[1..], r), r);
    }
  }

  lemma Distribute(d: nat, p: nat, v: nat, r: nat)
    ensures (d * p + v) * r == d * (p * r) + v * r
  {
    assert (d * p) * r == d * (p * r);
  }

  /** Accumulating digit by digit and summing by place are the same number. */
  lemma {:induction false} PositionalIsValue(ds: Digits, r: nat)
    ensures Positional(ds, r) == Value(ds, r)
  {
    if ds != [] {
      LeadDigit(ds, r);
      PositionalIsValue(ds[1..], r);
    }
  }
}
