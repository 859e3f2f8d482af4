/** Numbers written with a fixed count of digits, most significant first. */
module Numerals {
  import opened Strings

  predicate Digits(ds: seq<nat>, b: nat) {
    forall i :: 0 <= i < |ds| ==> ds[i] < b
  }

  function Power(b: nat, k: nat): (p: nat)
    ensures b > 0 ==> p > 0
  {
    if k == 0 then 1 else
      var p := Power(b, k - 1);
      assert b > 0 ==> b * p > 0;
      b * p
  }

  function Value(ds: seq<nat>, b: nat): nat {
    if ds == [] then 0 else Value(ds[..|ds| - 1], b) * b + ds[|ds| - 1]
  }

  /** The k lowest digits of n. */
  function Numeral(n: nat, b: nat, k: nat): (ds: seq<nat>)
    requires b > 0
    ensures |ds| == k && Digits(ds, b)
    decreases k
  {
    if k == 0 then [] else Numeral(Shifted(n, b), b, k - 1) + [Lowest(n, b)]
  }

  function Shifted(n: nat, b: nat): (q: nat)
    requires b > 0
  {
    n / b
  }

  function Lowest(n: nat, b: nat): (d: nat)
    requires b > 0
    ensures d < b && Shifted(n, b) * b + d == n
  {
    n % b
  }

  lemma {:induction false} ValueBound(ds: seq<nat>, b: nat)
    requires Digits(ds, b)
    ensures Value(ds, b) < Power(b, |ds|)
  {
    if ds != [] {
      var init := ds[..|ds| - 1];
      ValueBound(init, b);
      BelowNext(Value(init, b), Power(b, |init|), ds[|ds| - 1], b);
    }
  }

  lemma BelowNext(v: nat, p: nat, d: nat, b: nat)
    requires v < p && d < b
    ensures v * b + d < b * p
  {
    Scaled(v + 1, p, b);
    assert (v + 1) * b == v * b + b;
  }

  lemma Scaled(x: nat, y: nat, b: nat)
    requires x <= y
    ensures x * b <= b * y
  {
  }

  /** Writing a number down and reading it back. */
  lemma {:induction false} NumeralValue(n: nat, b: nat, k: nat)
    requires b > 0 && n < Power(b, k)
    ensures Value(Numeral(n, b, k), b) == n
    decreases k
  {
    hide Shifted, Lowest;
    if k > 0 {
      QuotientBound(n, b, Power(b, k - 1));
      NumeralValue(Shifted(n, b), b, k - 1);
      ValueAppend(Numeral(Shifted(n, b), b, k - 1), Lowest(n, b), b);
    }
  }

  lemma QuotientBound(n: nat, b: nat, p: nat)
    requires b > 0 && n < b * p
    ensures Shifted(n, b) < p
  {
    hide Shifted;
    var d := Lowest(n, b);
    if Shifted(n, b) >= p {
      Scaled(p, Shifted(n, b), b);
    }
  }

  /** The first digit weighs most. */
  lemma {:induction false} ValueHead(ds: seq<nat>, b: nat)
    requires ds != []
    ensures Value(ds, b) == ds[0] * Power(b, |ds| - 1) + Value(ds[1..], b)
  {
    var init := ds[..|ds| - 1];
    if init != [] {
      ValueHead(init, b);
      assert ds[1..][..|ds| - 2] == init[1..];
      Distribute(ds[0], Power(b, |ds| - 2), Value(init[1..], b), b);
    } else {
      assert ds[1..] == [] && ds[..0] == [];
      assert Power(b, 0) == 1;
    }
  }

  lemma Distribute(d: nat, p: nat, v: nat, b: nat)
    ensures (d * p + v) * b == d * (b * p) + v * b
  {
  }

  /** Symbols in ascending order spell numbers in lexicographic order. */
  lemma {:induction false} OrderedAsSpelled(x: seq<nat>, y: seq<nat>, b: nat, symbols: string)
    requires |x| == |y| && Digits(x, b) && Digits(y, b)
    requires |symbols| == b && forall i, j :: 0 <= i < j < b ==> symbols[i] < symbols[j]
    ensures Value(x, b) < Value(y, b) <==> Less(Spelled(x, symbols), Spelled(y, symbols))
  {
    if x != [] {
      ValueHead(x, b);
      ValueHead(y, b);
      ValueBound(x[1..], b);
      ValueBound(y[1..], b);
      var p := Power(b, |x| - 1);
      assert Spelled(x, symbols)[1..] == Spelled(x[1..], symbols);
      assert Spelled(y, symbols)[1..] == Spelled(y[1..], symbols);
      if x[0] == y[0] {
        OrderedAsSpelled(x[1..], y[1..], b, symbols);
      } else if x[0] < y[0] {
        HeadDecides(x[0], y[0], p, Value(x[1..], b), Value(y[1..], b));
      } else {
        HeadDecides(y[0], x[0], p, Value(y[1..], b), Value(x[1..], b));
      }
    }
  }

  lemma HeadDecides(d: nat, e: nat, p: nat, v: nat, w: nat)
    requires d < e && v < p
    ensures d * p + v < e * p + w
  {
    assert (d + 1) * p <= e * p;
  }

  function Spelled(ds: seq<nat>, symbols: string): (s: string)
    requires Digits(ds, |symbols|)
    ensures |s| == |ds|
  {
    seq(|ds|, i requires 0 <= i < |ds| => symbols[ds[i]])
  }

  /** As many digits, as much worth: the same digits. */
  lemma {:induction false} SameDigits(x: seq<nat>, y: seq<nat>, b: nat)
    requires |x| == |y| && Digits(x, b) && Digits(y, b) && Value(x, b) == Value(y, b)
    ensures x == y
  {
    if x != [] {
      var u, v := Value(x[..|x| - 1], b), Value(y[..|y| - 1], b);
      LastDigit(u, x[|x| - 1], v, y[|y| - 1], b);
      SameDigits(x[..|x| - 1], y[..|y| - 1], b);
      assert x == x[..|x| - 1] + [x[|x| - 1]] && y == y[..|y| - 1] + [y[|y| - 1]];
    }
  }

  lemma LastDigit(u: nat, d: nat, v: nat, e: nat, b: nat)
    requires d < b && e < b && u * b + d == v * b + e
    ensures u == v && d == e
  {
    if u < v {
      Scaled(u + 1, v, b);
    } else if v < u {
      Scaled(v + 1, u, b);
    }
  }

  lemma {:induction false} ValueAppend(ds: seq<nat>, d: nat, b: nat)
    ensures Value(ds + [d], b) == Value(ds, b) * b + d
  {
    assert (ds + [d])[..|ds|] == ds;
  }
}
