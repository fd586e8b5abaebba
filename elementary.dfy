/** The library functions the source calls on floating-point numbers (Math.sqrt, Math.sin,
    Math.cos, Math.acos, Math.log10, Math.pow), taken over the reals.  Their exact values are
    not modelled: a `Functions` value is any choice of the six functions, and the predicates
    below state the laws that the proofs rely on.  Members that only compute take a
    `Functions` argument; lemmas add the laws they need as preconditions. */
module Elementary {

  datatype Functions = Functions(
    sqrt: real -> real,
    sin: real -> real,
    cos: real -> real,
    acos: real -> real,
    log10: real -> real,
    pow: (real, real) -> real)

  /** Math.PI, as the real number its decimal literal denotes. */
  const PI: real := 3.141592653589793

  /** 10 to an integer power, exactly. */
  function Pow10(n: int): (r: real)
    ensures r > 0.0
    decreases if n < 0 then -n else n
  {
    if n == 0 then 1.0
    else if n > 0 then 10.0 * Pow10(n - 1)
    else Pow10(n + 1) / 10.0
  }

  lemma Pow10Succ(n: int)
    ensures Pow10(n + 1) == 10.0 * Pow10(n)
  {
  }

  /** sin² + cos² = 1 everywhere, and sin 0 = 0. */
  ghost predicate TrigLaws(f: Functions) {
    && (forall x :: f.sin(x) * f.sin(x) + f.cos(x) * f.cos(x) == 1.0)
    && f.sin(0.0) == 0.0
  }

  /** The square root of a non-negative number is its non-negative root. */
  ghost predicate SqrtLaws(f: Functions) {
    forall x :: 0.0 <= x ==> 0.0 <= f.sqrt(x) && f.sqrt(x) * f.sqrt(x) == x
  }

  /** acos maps [-1, 1] into [0, PI] and is zero only at 1. */
  ghost predicate AcosLaws(f: Functions) {
    forall x :: -1.0 <= x < 1.0 ==> 0.0 < f.acos(x) <= PI
  }

  /** log10 is strictly increasing on the positive reals and inverts integer powers of ten. */
  ghost predicate LogLaws(f: Functions) {
    && (forall x, y :: 0.0 < x < y ==> f.log10(x) < f.log10(y))
    && (forall n: int :: f.log10(Pow10(n)) == n as real)
  }

  /** pow with a positive exponent is non-negative and strictly increasing on the non-negative
      reals and maps 0 to 0; squares and cubes are the products. */
  ghost predicate PowLaws(f: Functions) {
    && (forall x, k :: 0.0 <= x && 0.0 < k ==> 0.0 <= f.pow(x, k))
    && (forall x, y, k :: 0.0 <= x < y && 0.0 < k ==> f.pow(x, k) < f.pow(y, k))
    && (forall k :: 0.0 < k ==> f.pow(0.0, k) == 0.0)
    && (forall x :: f.pow(x, 2.0) == x * x)
    && (forall x :: f.pow(x, 3.0) == x * x * x)
  }

  /** pow(10, n) for an integer n is exactly 10^n. */
  ghost predicate PowTenLaws(f: Functions) {
    forall n: int :: f.pow(10.0, n as real) == Pow10(n)
  }

  /** Squaring is strictly increasing on the non-negative reals. */
  lemma SquareStrictlyIncreasing(a: real, b: real)
    requires 0.0 <= a && 0.0 <= b
    ensures a < b ==> a * a < b * b
  {
    if a < b {
      calc {
        a * a;
      <= a * b;
      <  b * b;
      }
    }
  }

  /** Dividing by a positive p keeps x between lo and hi when lo·p <= x < hi·p. */
  lemma QuotientBounds(x: real, p: real, lo: real, hi: real)
    requires p > 0.0 && lo * p <= x < hi * p
    ensures lo <= x / p < hi
  {
    var m := x / p;
    assert m * p == x;
    assert (hi - m) * p == hi * p - x;
    assert (m - lo) * p == x - lo * p;
  }

  /** A non-negative number whose square is x is the square root of x. */
  lemma SqrtUnique(f: Functions, x: real, a: real)
    requires SqrtLaws(f)
    requires 0.0 <= a && a * a == x
    ensures f.sqrt(x) == a
  {
    var s := f.sqrt(x);
    assert 0.0 <= s && s * s == x;
    SquareStrictlyIncreasing(s, a);
    SquareStrictlyIncreasing(a, s);
  }

  /** The square root of a non-negative number is non-negative, and zero only at zero. */
  lemma SqrtZeroIff(f: Functions, x: real)
    requires SqrtLaws(f)
    requires 0.0 <= x
    ensures 0.0 <= f.sqrt(x)
    ensures f.sqrt(x) == 0.0 <==> x == 0.0
  {
    var s := f.sqrt(x);
    assert 0.0 <= s && s * s == x;
    SquareStrictlyIncreasing(0.0, s);
  }

  /** The square root is strictly increasing on the non-negative reals. */
  lemma SqrtStrictlyIncreasing(f: Functions, x: real, y: real)
    requires SqrtLaws(f)
    requires 0.0 <= x < y
    ensures f.sqrt(x) < f.sqrt(y)
  {
    var a, b := f.sqrt(x), f.sqrt(y);
    assert 0.0 <= a && a * a == x && 0.0 <= b && b * b == y;
    SquareStrictlyIncreasing(b, a);
    assert b != a;
  }

  /** log10 does not decrease on the positive reals. */
  lemma LogMonotone(f: Functions, x: real, y: real)
    requires LogLaws(f)
    requires 0.0 < x <= y
    ensures f.log10(x) <= f.log10(y)
  {
    if x < y {
      assert f.log10(x) < f.log10(y);
    }
  }

  /** pow with a positive exponent does not decrease on the non-negative reals. */
  lemma PowMonotone(f: Functions, x: real, y: real, k: real)
    requires PowLaws(f)
    requires 0.0 <= x <= y && 0.0 < k
    ensures f.pow(x, k) <= f.pow(y, k)
  {
    if x < y {
      assert f.pow(x, k) < f.pow(y, k);
    }
  }

  /** floor(log10 x) is the exponent of the largest power of ten not above x. */
  lemma {:induction false} LogFloorBrackets(f: Functions, x: real)
    requires LogLaws(f)
    requires 0.0 < x
    ensures Pow10(f.log10(x).Floor) <= x < Pow10(f.log10(x).Floor + 1)
  {
    var k := f.log10(x).Floor;
    assert f.log10(Pow10(k)) == k as real;
    assert f.log10(Pow10(k + 1)) == (k + 1) as real;
    assert x < Pow10(k) ==> f.log10(x) < f.log10(Pow10(k));
    assert Pow10(k + 1) < x ==> f.log10(Pow10(k + 1)) < f.log10(x);
  }
}
