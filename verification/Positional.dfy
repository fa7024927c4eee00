/** Positional numerals in any base, most significant digit first. */
module Positional {

  ghost predicate InBase(base: nat, digits: seq<nat>) {
    forall k :: 0 <= k < |digits| ==> digits[k] < base
  }

  function Value(base: nat, digits: seq<nat>): nat {
    if digits == [] then 0
    else Value(base, digits[..|digits| - 1]) * base + digits[|digits| - 1]
  }

  /** The shortest numeral of n; zero is the empty numeral. */
  function Digits(base: nat, n: nat): seq<nat>
    requires base >= 2
    decreases n
  {
    if n == 0 then [] else DivideSmaller(base, n); Digits(base, n / base) + [n % base]
  }

  function Power(base: nat, k: nat): nat {
    if k == 0 then 1 else Power(base, k - 1) * base
  }

  // ---------------------------------------------------------------- division by a variable

  lemma Scale(x: nat, y: nat, base: nat)
    requires x <= y
    ensures x * base <= y * base
  {
  }

  lemma DivideSmaller(base: nat, n: nat)
    requires base >= 2 && n > 0
    ensures n / base < n
  {
  }

  lemma Remainder(base: nat, n: nat)
    requires base > 0
    ensures n == (n / base) * base + n % base
  {
  }

  lemma QuotientUnique(base: nat, q: nat, r: nat, q': nat, r': nat)
    requires r < base && r' < base && q * base + r == q' * base + r'
    ensures q == q' && r == r'
  {
    if q < q' {
      Scale(q + 1, q', base);
    } else if q' < q {
      Scale(q' + 1, q, base);
    }
  }

  lemma DivideBack(base: nat, q: nat, r: nat)
    requires r < base
    ensures (q * base + r) / base == q && (q * base + r) % base == r
  {
    var n := q * base + r;
    Remainder(base, n);
    QuotientUnique(base, q, r, n / base, n % base);
  }

  // ---------------------------------------------------------------- numerals and values

  lemma {:induction false} DigitsValue(base: nat, n: nat)
    requires base >= 2
    ensures Value(base, Digits(base, n)) == n
    ensures InBase(base, Digits(base, n))
    ensures n > 0 ==> Digits(base, n) != [] && Digits(base, n)[0] != 0
    decreases n
  {
    if n > 0 {
      var q, r := n / base, n % base;
      DivideSmaller(base, n);
      DigitsValue(base, q);
      Remainder(base, n);
      var ds := Digits(base, n);
      assert ds == Digits(base, q) + [r];
      assert ds[..|ds| - 1] == Digits(base, q);
      if q == 0 {
        assert ds == [n];
      }
    }
  }

  /** A numeral without leading zeros is the numeral of its value. */
  lemma {:induction false} ValueDigits(base: nat, digits: seq<nat>)
    requires base >= 2 && InBase(base, digits)
    requires digits != [] ==> digits[0] != 0
    ensures Digits(base, Value(base, digits)) == digits
    ensures digits != [] ==> Value(base, digits) > 0
  {
    if digits != [] {
      var rest, last := digits[..|digits| - 1], digits[|digits| - 1];
      ValueDigits(base, rest);
      DivideBack(base, Value(base, rest), last);
      if rest == [] {
        assert Value(base, digits) == last;
      } else {
        Scale(1, Value(base, rest), base);
      }
      assert digits == rest + [last];
    }
  }

  lemma {:induction false} ValueBound(base: nat, digits: seq<nat>)
    requires base >= 2 && InBase(base, digits)
    ensures Value(base, digits) < Power(base, |digits|)
  {
    if digits != [] {
      var rest, last := digits[..|digits| - 1], digits[|digits| - 1];
      ValueBound(base, rest);
      var v := Value(base, rest);
      Scale(v + 1, Power(base, |rest|), base);
      assert (v + 1) * base == v * base + base;
      assert last < base;
    }
  }

  lemma {:induction false} DigitsBound(base: nat, n: nat, k: nat)
    requires base >= 2 && n < Power(base, k)
    ensures |Digits(base, n)| <= k
    decreases n
  {
    if n > 0 {
      var q := n / base;
      DivideSmaller(base, n);
      Remainder(base, n);
      if k > 0 && q >= Power(base, k - 1) {
        Scale(Power(base, k - 1), q, base);
      }
      DigitsBound(base, q, k - 1);
    }
  }

  // ---------------------------------------------------------------- powers and lengths

  lemma Product(x: nat, y: nat, u: nat, v: nat)
    requires x <= u && y <= v
    ensures x * y <= u * v
  {
    Scale(x, u, y);
    Scale(y, v, u);
    assert y * u == u * y && v * u == u * v;
  }

  lemma {:induction false} PowerGrows(small: nat, big: nat, k: nat)
    requires 1 <= small <= big
    ensures 1 <= Power(small, k) <= Power(big, k)
  {
    if k > 0 {
      PowerGrows(small, big, k - 1);
      Product(Power(small, k - 1), small, Power(big, k - 1), big);
      Product(1, 1, Power(small, k - 1), small);
    }
  }

  lemma {:induction false} PowerAdd(base: nat, j: nat, k: nat)
    ensures Power(base, j + k) == Power(base, j) * Power(base, k)
  {
    if k > 0 {
      PowerAdd(base, j, k - 1);
      Associate(Power(base, j), Power(base, k - 1), base);
    } else {
      assert Power(base, j) * 1 == Power(base, j);
    }
  }

  lemma Associate(x: nat, y: nat, z: nat)
    ensures (x * y) * z == x * (y * z)
  {
  }

  /** A numeral in a bigger base is no longer. */
  lemma BiggerBaseShorter(small: nat, big: nat, n: nat)
    requires 2 <= small <= big
    ensures |Digits(big, n)| <= |Digits(small, n)|
  {
    DigitsValue(small, n);
    ValueBound(small, Digits(small, n));
    PowerGrows(small, big, |Digits(small, n)|);
    DigitsBound(big, n, |Digits(small, n)|);
  }

  /** The first digit is the most significant one. */
  lemma {:induction false} ValueFirst(base: nat, digit: nat, rest: seq<nat>)
    ensures Value(base, [digit] + rest) == digit * Power(base, |rest|) + Value(base, rest)
  {
    var all := [digit] + rest;
    if rest == [] {
      assert all[..0] == [];
    } else {
      var n := |rest| - 1;
      assert all[..n + 1] == [digit] + rest[..n] && all[n + 1] == rest[n];
      ValueFirst(base, digit, rest[..n]);
      var p, v := Power(base, n), Value(base, rest[..n]);
      assert (digit * p + v) * base == digit * (p * base) + v * base;
    }
  }
}
