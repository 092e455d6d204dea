/**
 * The few java.lang operations the core relies on, written out so that their
 * results can be reasoned about: String.compareTo, String.startsWith,
 * Integer.compareTo and String.hashCode.
 */
module JavaLang {

  /** String.compareTo: the difference of the first differing characters, else of the lengths. */
  function StringCompareTo(a: string, b: string): (r: int)
  {
    if |a| == 0 || |b| == 0 then |a| - |b|
    else if a[0] != b[0] then a[0] as int - b[0] as int
    else StringCompareTo(a[1..], b[1..])
  }

  /** String.startsWith: `prefix` is a literal character prefix of `s`. */
  predicate StartsWith(s: string, prefix: string)
  {
    |prefix| <= |s| && s[..|prefix|] == prefix
  }

  /** Integer.compareTo on boxed service numbers: -1, 0 or 1. */
  function IntegerCompareTo(x: int, y: int): (r: int)
    ensures r == 0 <==> x == y
    ensures r < 0 <==> x < y
    ensures -1 <= r <= 1
  {
    if x < y then -1 else if x == y then 0 else 1
  }

  /** String.hashCode, without Java's 32-bit wrap-around. */
  function StringHashCode(s: string): (r: int)
  {
    if s == [] then 0 else 31 * StringHashCode(s[..|s| - 1]) + s[|s| - 1] as int
  }

  /** Decimal rendering of an int, as string concatenation does it. */
  function DecimalString(n: int): (r: string)
    ensures |r| > 0
    decreases if n < 0 then 1 - n else n
  {
    if n < 0 then "-" + DecimalString(-n)
    else if n < 10 then ["0123456789"[n]]
    else DecimalString(n / 10) + ["0123456789"[n % 10]]
  }

  /** compareTo returns 0 exactly on equal strings. */
  lemma {:induction false} StringCompareToZeroIffEqual(a: string, b: string)
    ensures StringCompareTo(a, b) == 0 <==> a == b
  {
    if |a| == 0 || |b| == 0 {
    } else if a[0] != b[0] {
    } else {
      StringCompareToZeroIffEqual(a[1..], b[1..]);
      assert a == [a[0]] + a[1..] && b == [b[0]] + b[1..];
    }
  }

  /** compareTo is exactly antisymmetric: swapping the operands negates the result. */
  lemma {:induction false} StringCompareToAntisymmetric(a: string, b: string)
    ensures StringCompareTo(a, b) == -StringCompareTo(b, a)
  {
    if |a| == 0 || |b| == 0 {
    } else if a[0] != b[0] {
    } else {
      StringCompareToAntisymmetric(a[1..], b[1..]);
    }
  }

  /** compareTo orders strings transitively (strictly). */
  lemma {:induction false} StringCompareToTransitive(a: string, b: string, c: string)
    requires StringCompareTo(a, b) < 0 && StringCompareTo(b, c) < 0
    ensures StringCompareTo(a, c) < 0
  {
    if |a| == 0 || |b| == 0 || |c| == 0 {
    } else if a[0] != b[0] || b[0] != c[0] {
    } else {
      StringCompareToTransitive(a[1..], b[1..], c[1..]);
    }
  }
}
