/**
 * Number handling the storefront relies on: `Number(x.toFixed(k))` for a
 * non-negative amount, the text `x.toFixed(2)` writes, and the values
 * `seededRandom` draws.
 */
module Numbers {
  import opened Text

  /**
   * `Number(x.toFixed(k))` for `scale == 10^k`: `x` rounded half up to a
   * multiple of `1 / scale`.
   */
  function RoundTo(x: real, scale: nat): (r: real)
    requires scale >= 1
    ensures x - 1.0 / (2 * scale) as real < r <= x + 1.0 / (2 * scale) as real
  {
    var n := (x * scale as real + 0.5).Floor;
    RoundingFacts(x, scale, n);
    n as real / scale as real
  }

  lemma RoundingFacts(x: real, p: nat, n: int)
    requires p >= 1
    requires n as real <= x * p as real + 0.5 < n as real + 1.0
    ensures x - 1.0 / (2 * p) as real < n as real / p as real <= x + 1.0 / (2 * p) as real
  {
    var pr := p as real;
    assert (2 * p) as real == 2.0 * pr;
    assert x - 1.0 / (2.0 * pr) == (x * pr - 0.5) / pr;
    assert x + 1.0 / (2.0 * pr) == (x * pr + 0.5) / pr;
    DivideMonotone(x * pr - 0.5, n as real, pr);
    DivideMonotoneLe(n as real, x * pr + 0.5, pr);
  }

  lemma DivideMonotone(a: real, b: real, p: real)
    requires p > 0.0 && a < b
    ensures a / p < b / p
  {
    assert b / p - a / p == (b - a) / p;
  }

  lemma DivideMonotoneLe(a: real, b: real, p: real)
    requires p > 0.0 && a <= b
    ensures a / p <= b / p
  {
    assert b / p - a / p == (b - a) / p;
  }

  /** Rounding keeps an amount inside the whole-unit bounds it lies between. */
  lemma RoundToWithin(x: real, scale: nat, lo: int, hi: int)
    requires scale >= 1
    requires lo as real <= x <= hi as real
    ensures lo as real <= RoundTo(x, scale) <= hi as real
  {
    var n := (x * scale as real + 0.5).Floor;
    RoundedAbove(x, scale, n, lo);
    RoundedBelow(x, scale, n, hi);
  }

  /** Rounding `x >= lo` to a multiple of `1 / p` stays at or above the whole number `lo`. */
  lemma RoundedAbove(x: real, p: nat, n: int, lo: int)
    requires p >= 1
    requires n as real <= x * p as real + 0.5 < n as real + 1.0
    requires lo as real <= x
    ensures lo as real <= n as real / p as real
  {
    var pr := p as real;
    MultiplyMonotone(lo as real, x, pr);
    CastProduct(lo, p);
    assert lo * p <= n;
    DivideMonotoneLe((lo * p) as real, n as real, pr);
    MulThenDiv(lo as real, pr);
  }

  /** Rounding `x <= hi` to a multiple of `1 / p` stays at or below the whole number `hi`. */
  lemma RoundedBelow(x: real, p: nat, n: int, hi: int)
    requires p >= 1
    requires n as real <= x * p as real + 0.5 < n as real + 1.0
    requires x <= hi as real
    ensures n as real / p as real <= hi as real
  {
    var pr := p as real;
    MultiplyMonotone(x, hi as real, pr);
    CastProduct(hi, p);
    assert n <= hi * p;
    DivideMonotoneLe(n as real, (hi * p) as real, pr);
    MulThenDiv(hi as real, pr);
  }

  lemma MulThenDiv(a: real, p: real)
    requires p > 0.0
    ensures (a * p) / p == a
  {
  }

  lemma CastProduct(a: int, b: int)
    ensures (a * b) as real == a as real * b as real
  {
  }

  lemma MultiplyMonotone(a: real, b: real, p: real)
    requires p >= 0.0 && a <= b
    ensures a * p <= b * p
  {
    assert b * p - a * p == (b - a) * p;
  }

  /** The text `x.toFixed(2)` writes for an amount of `hundredths` hundredths. */
  function FixedTwo(hundredths: nat): (s: string)
    ensures |s| >= 4 && s[|s| - 3] == '.'
    ensures forall i :: 0 <= i < |s| && i != |s| - 3 ==> '0' <= s[i] <= '9'
  {
    NatToString(hundredths / 100) + "." + [DigitChar(hundredths % 100 / 10), DigitChar(hundredths % 10)]
  }

  /** Reading the digits back gives the amount: the text is a faithful rendering. */
  lemma FixedTwoInjective(a: nat, b: nat)
    requires FixedTwo(a) == FixedTwo(b)
    ensures a == b
  {
    var s := FixedTwo(a);
    assert NatToString(a / 100) == s[..|s| - 3] == NatToString(b / 100);
    NatToStringInjective(a / 100, b / 100);
    assert DigitChar(a % 100 / 10) == s[|s| - 2] == DigitChar(b % 100 / 10);
    assert DigitChar(a % 10) == s[|s| - 1] == DigitChar(b % 10);
    SameDigitsSameAmount(a, b);
  }

  /** An amount is its whole units, its tenths digit and its hundredths digit. */
  lemma SameDigitsSameAmount(a: nat, b: nat)
    requires a / 100 == b / 100 && a % 100 / 10 == b % 100 / 10 && a % 10 == b % 10
    ensures a == b
  {
    LastDigit(a);
    LastDigit(b);
    assert a % 100 == 10 * (a % 100 / 10) + a % 100 % 10;
    assert b % 100 == 10 * (b % 100 / 10) + b % 100 % 10;
  }

  /** The last digit of an amount is the last digit of its hundredths. */
  lemma LastDigit(a: nat)
    ensures a % 10 == a % 100 % 10
  {
    var q, r := a / 100, a % 100;
    var t, u := r / 10, r % 10;
    assert a == 10 * (10 * q + t) + u;
  }
}

/**
 * `seededRandom(seed)`: `x - Math.floor(x)` for `x = Math.sin(seed) * 10000`.
 * The sine itself is not modelled; callers receive the draw as a parameter,
 * a fraction in [0, 1) when the seed is finite.
 */
module SeededRandom {
  /** A draw of `seededRandom` from a finite seed. */
  type Fraction = r: real | 0.0 <= r < 1.0

  /** A draw that may come from a non-numeric seed, where the result is `NaN`. */
  datatype Sample = Finite(value: Fraction) | NonFinite

  /** `Number.isFinite(raw) ? raw : 0.5`. */
  function OrHalf(raw: Sample): (r: Fraction)
    ensures raw.Finite? ==> r == raw.value
    ensures raw.NonFinite? ==> r == 0.5
  {
    if raw.Finite? then raw.value else 0.5
  }
}
