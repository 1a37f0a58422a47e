/**
 * Decimal rendering of image numbers as Rust's `format!("{n:05}")` produces
 * them for a `usize`: the shortest decimal digits of `n`, padded on the left
 * with '0' up to a MINIMUM width of five. A number of six or more digits is
 * written in full, never truncated.
 *
 * Besides the rendering, the module defines its inverse (`Value`, reading a
 * string of decimal digits) and the byte-wise order in which file names sort.
 */
module Format {

  predicate IsDigit(c: char) {
    '0' <= c <= '9'
  }

  predicate AllDigits(s: string) {
    forall i | 0 <= i < |s| :: IsDigit(s[i])
  }

  function DigitValue(c: char): nat
    requires IsDigit(c)
  {
    (c as int) - ('0' as int)
  }

  /** The character of one decimal digit; `DigitValue` undoes it. */
  function DigitChar(d: nat): (c: char)
    requires d < 10
    ensures IsDigit(c) && DigitValue(c) == d
  {
    (('0' as int) + d) as char
  }

  function Pow10(k: nat): nat {
    if k == 0 then 1 else 10 * Pow10(k - 1)
  }

  /** The shortest decimal representation of `n`: "0" for zero, otherwise no leading '0'. */
  function Digits(n: nat): (s: string)
    ensures 1 <= |s| && AllDigits(s)
    ensures |s| > 1 ==> s[0] != '0'
    decreases n
  {
    if n < 10 then [DigitChar(n)] else Digits(n / 10) + [DigitChar(n % 10)]
  }

  function Zeros(k: nat): string {
    if k == 0 then [] else Zeros(k - 1) + ['0']
  }

  /** `format!("{n:0width$}")`: left-padded with '0' to at least `width` characters. */
  function ZeroPad(n: nat, width: nat): (s: string)
    ensures |s| >= width && |s| >= |Digits(n)|
    ensures |s| == width || s == Digits(n)
  {
    var d := Digits(n);
    if |d| < width then
      ZerosAreDigits(width - |d|);
      Zeros(width - |d|) + d
    else d
  }

  /** The number a string of decimal digits denotes; leading zeros are allowed. */
  function Value(s: string): nat
    requires AllDigits(s)
  {
    if s == [] then 0 else 10 * Value(s[..|s| - 1]) + DigitValue(s[|s| - 1])
  }

  /** Byte-wise (here: code-point-wise) order of strings, as file names sort. */
  predicate LexLess(a: string, b: string) {
    b != [] && (a == [] || a[0] < b[0] || (a[0] == b[0] && LexLess(a[1..], b[1..])))
  }

  // ---------------------------------------------------------------------------
  // Reading back what was rendered

  lemma {:induction false} ZerosAreDigits(k: nat)
    ensures |Zeros(k)| == k && AllDigits(Zeros(k)) && Value(Zeros(k)) == 0
    ensures forall i | 0 <= i < k :: Zeros(k)[i] == '0'
  {
    if k > 0 {
      ZerosAreDigits(k - 1);
      assert Zeros(k)[..k - 1] == Zeros(k - 1);
    }
  }

  /** `x` followed by `k` zero digits, that is `x * 10^k`, built by repeated shifting. */
  function Shift(x: nat, k: nat): nat {
    if k == 0 then x else 10 * Shift(x, k - 1)
  }

  lemma {:induction false} ShiftIsProduct(x: nat, k: nat)
    ensures Shift(x, k) == x * Pow10(k)
  {
    if k > 0 {
      ShiftIsProduct(x, k - 1);
      Regroup(x, Pow10(k - 1));
    }
  }

  lemma Regroup(x: nat, p: nat)
    ensures 10 * (x * p) == x * (10 * p)
  {
  }

  /** Reading the concatenation of two digit strings. */
  lemma {:induction false} ValueConcat(a: string, b: string)
    requires AllDigits(a) && AllDigits(b)
    ensures AllDigits(a + b)
    ensures Value(a + b) == Shift(Value(a), |b|) + Value(b)
  {
    if b == [] {
      assert a + b == a;
    } else {
      var b', c := b[..|b| - 1], b[|b| - 1];
      ValueConcat(a, b');
      assert AllDigits(a + b) by {
        assert a + b == (a + b') + [c];
      }
      assert Value(a + b) == 10 * Value(a + b') + DigitValue(c) by {
        assert (a + b)[..|a + b| - 1] == a + b';
        assert (a + b)[|a + b| - 1] == c;
      }
    }
  }

  /** `Value` inverts `Digits`. */
  lemma {:induction false} ValueOfDigits(n: nat)
    ensures Value(Digits(n)) == n
    decreases n
  {
    if n >= 10 {
      var s := Digits(n);
      assert s[..|s| - 1] == Digits(n / 10);
      ValueOfDigits(n / 10);
    }
  }

  /** Padding with zeros does not change the number read back. */
  lemma {:induction false} ValueOfZeroPad(n: nat, width: nat)
    ensures AllDigits(ZeroPad(n, width)) && Value(ZeroPad(n, width)) == n
  {
    var d := Digits(n);
    ValueOfDigits(n);
    if |d| < width {
      var z := Zeros(width - |d|);
      ZerosAreDigits(width - |d|);
      ValueConcat(z, d);
      ShiftIsProduct(0, |d|);
    }
  }

  /** Distinct numbers never render to the same padded string. */
  lemma ZeroPadInjective(a: nat, b: nat, width: nat)
    requires ZeroPad(a, width) == ZeroPad(b, width)
    ensures a == b
  {
    ValueOfZeroPad(a, width);
    ValueOfZeroPad(b, width);
  }

  // ---------------------------------------------------------------------------
  // Width: five characters below 100000, more from there on

  lemma {:induction false} Pow10AtLeastTen(k: nat)
    requires k >= 1
    ensures Pow10(k) >= 10
  {
    if k > 1 {
      Pow10AtLeastTen(k - 1);
    }
  }

  /** `n` has at most `k` digits exactly when it is below 10^k. */
  lemma {:induction false} DigitsLength(n: nat, k: nat)
    requires k >= 1
    ensures |Digits(n)| <= k <==> n < Pow10(k)
    decreases n
  {
    Pow10AtLeastTen(k);
    if n >= 10 && k >= 2 {
      DigitsLength(n / 10, k - 1);
    }
  }

  /** The padded rendering is never shorter than the width, and longer exactly from 10^width on. */
  lemma ZeroPadLength(n: nat, width: nat)
    requires width >= 1
    ensures |ZeroPad(n, width)| >= width
    ensures |ZeroPad(n, width)| == width <==> n < Pow10(width)
  {
    var d := Digits(n);
    DigitsLength(n, width);
    if |d| < width {
      ZerosAreDigits(width - |d|);
      assert |ZeroPad(n, width)| == width;
    } else {
      assert ZeroPad(n, width) == d;
    }
  }

  // ---------------------------------------------------------------------------
  // Order: same-width renderings sort like the numbers

  lemma {:induction false} ValueBound(s: string)
    requires AllDigits(s)
    ensures Value(s) < Pow10(|s|)
  {
    if s != [] {
      ValueBound(s[..|s| - 1]);
    }
  }

  /** With equal-length tails below `p`, the leading digit decides the order. */
  lemma LeadingDigitDecides(ds: nat, vs: nat, dt: nat, vt: nat, p: nat)
    requires vs < p && vt < p
    requires ds * p + vs < dt * p + vt
    ensures ds <= dt
  {
    if ds > dt {
      MulMonotone(dt + 1, ds, p);
      MulSucc(dt, p);
      assert false;
    }
  }

  lemma MulMonotone(x: nat, y: nat, p: nat)
    requires x <= y
    ensures x * p <= y * p
  {
  }

  lemma MulSucc(x: nat, p: nat)
    ensures (x + 1) * p == x * p + p
  {
  }

  /** Among digit strings of one length, the smaller number sorts first. */
  lemma {:induction false} ValueOrderIsLexOrder(s: string, t: string)
    requires AllDigits(s) && AllDigits(t) && |s| == |t|
    requires Value(s) < Value(t)
    ensures LexLess(s, t)
  {
    if s == [] {
      assert false;
    }
    var s', t' := s[1..], t[1..];
    var p := Pow10(|s'|);
    assert [s[0]] + s' == s;
    assert [t[0]] + t' == t;
    assert Value([s[0]]) == DigitValue(s[0]) by { assert [s[0]][..0] == []; }
    assert Value([t[0]]) == DigitValue(t[0]) by { assert [t[0]][..0] == []; }
    ValueConcat([s[0]], s');
    ValueConcat([t[0]], t');
    ShiftIsProduct(DigitValue(s[0]), |s'|);
    ShiftIsProduct(DigitValue(t[0]), |t'|);
    ValueBound(s');
    ValueBound(t');
    LeadingDigitDecides(DigitValue(s[0]), Value(s'), DigitValue(t[0]), Value(t'), p);
    if s[0] == t[0] {
      ValueOrderIsLexOrder(s', t');
    }
  }

  lemma {:induction false} LexLessAppend(a: string, b: string, c: string)
    requires |a| == |b| && LexLess(a, b)
    ensures LexLess(a + c, b + c)
  {
    assert (a + c)[0] == a[0] && (b + c)[0] == b[0];
    if a[0] == b[0] {
      assert (a + c)[1..] == a[1..] + c;
      assert (b + c)[1..] == b[1..] + c;
      LexLessAppend(a[1..], b[1..], c);
    }
  }

  /** Below 10^width, padded renderings sort in numeric order. */
  lemma ZeroPadOrdered(a: nat, b: nat, width: nat)
    requires width >= 1 && a < b < Pow10(width)
    ensures LexLess(ZeroPad(a, width), ZeroPad(b, width))
  {
    ZeroPadLength(a, width);
    ZeroPadLength(b, width);
    ValueOfZeroPad(a, width);
    ValueOfZeroPad(b, width);
    ValueOrderIsLexOrder(ZeroPad(a, width), ZeroPad(b, width));
  }
}
