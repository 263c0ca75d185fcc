/**
 * The small part of Python and numpy semantics that the rest of the model
 * relies on: exceptions as values, numpy's indexing and slicing rules
 * (negative indices count from the end, slice bounds are clamped), Python's
 * `round` (half to even), `int()` on a float (truncation toward zero), and
 * the infinite bounds of an observation space.
 */
module PySemantics {

  /** The Python exceptions the modelled code can raise. */
  datatype Exception =
    | NameError
    | TypeError
    | IndexError
    | KeyError
    | ValueError
    | ZeroDivisionError
    | NotImplementedError
    | AssertionError
    | StopIteration
    | UnboundLocalError

  datatype Option<+T> = None | Some(value: T)

  /** The outcome of a Python call: a value, or the exception it raises. */
  datatype Result<+T> = Ok(value: T) | Err(error: Exception)

  /** An entry of a numpy bound array: a finite value or one of the infinities. */
  datatype Bound = NegInf | PosInf | Finite(value: real)

  function Min(a: int, b: int): int { if a <= b then a else b }

  function Max(a: int, b: int): int { if a <= b then b else a }

  /** A constant sequence, as `v * np.ones(n)` or `[v] * n`. */
  function Repeat<T>(v: T, n: nat): (r: seq<T>)
    ensures |r| == n
    ensures forall i :: 0 <= i < n ==> r[i] == v
  {
    seq(n, _ => v)
  }

  /** `i` is a valid numpy index into a sequence of length `n` (negative ones count from the end). */
  predicate InIndexRange(i: int, n: nat)
  {
    -(n as int) <= i < n
  }

  /** The position that the valid numpy index `i` denotes. */
  function NpIndex(i: int, n: nat): (k: nat)
    requires InIndexRange(i, n)
    ensures k < n
    ensures k as int == i || k as int == i + n
  {
    if i < 0 then i + n else i
  }

  /** Where a slice bound `i` falls in a sequence of length `n`. */
  function SliceBound(i: int, n: nat): (b: nat)
    ensures b <= n
    ensures 0 <= i <= n ==> b == i
    ensures i > n ==> b == n
    ensures -(n as int) <= i < 0 ==> b == i + n
  {
    if i < 0 then Max(i + n, 0) else Min(i, n)
  }

  /** The slice `s[a:b]` with Python's rules for negative and out-of-range bounds. */
  function PySlice<T>(s: seq<T>, a: int, b: int): (r: seq<T>)
    ensures |r| <= |s|
    ensures 0 <= a <= b <= |s| ==> r == s[a..b]
    ensures SliceBound(b, |s|) <= SliceBound(a, |s|) ==> r == []
  {
    var lo, hi := SliceBound(a, |s|), SliceBound(b, |s|);
    if lo <= hi then s[lo..hi] else []
  }

  /** Python's `int(x)` on a float: truncation toward zero. */
  function Trunc(x: real): (t: int)
    ensures 0.0 <= x ==> 0 <= t && t as real <= x < t as real + 1.0
    ensures x < 0.0 ==> t <= 0 && t as real - 1.0 < x <= t as real
  {
    if 0.0 <= x then x.Floor else -((-x).Floor)
  }

  /** Python's `round(x)` and numpy's `np.round(x)`: to the nearest integer, ties to the even one. */
  function RoundHalfEven(x: real): (k: int)
    ensures x - 0.5 <= k as real <= x + 0.5
    ensures (k as real == x - 0.5 || k as real == x + 0.5) ==> k % 2 == 0
  {
    var f := x.Floor;
    var d := x - f as real;
    if d < 0.5 then f
    else if d > 0.5 then f + 1
    else if f % 2 == 0 then f else f + 1
  }

  /** The two clauses of RoundHalfEven's contract pin the result down: no other integer meets them. */
  lemma RoundHalfEvenUnique(x: real, k: int)
    requires x - 0.5 <= k as real <= x + 0.5
    requires (k as real == x - 0.5 || k as real == x + 0.5) ==> k % 2 == 0
    ensures k == RoundHalfEven(x)
  {
  }

  /** Multiplying both sides of a strict inequality by a positive real keeps it. */
  lemma MulLess(a: real, b: real, y: real)
    requires a < b && y > 0.0
    ensures a * y < b * y
  {
    assert (b - a) * y > 0.0;
  }

  /** Multiplying both sides of an inequality by a positive real keeps it. */
  lemma MulLeq(a: real, b: real, y: real)
    requires a <= b && y > 0.0
    ensures a * y <= b * y
  {
    assert (b - a) * y >= 0.0;
  }

  /** An inequality between two multiples of the same positive real holds between the factors. */
  lemma CancelLeq(a: real, b: real, y: real)
    requires a * y <= b * y && y > 0.0
    ensures a <= b
  {
    assert (a - b) * y <= 0.0;
  }

  /** A draw r in [0, 1) scaled by a positive m and truncated lies in [0, m). */
  lemma DrawBelow(r: real, m: real)
    requires 0.0 <= r < 1.0 && m > 0.0
    ensures 0 <= Trunc(r * m) && (Trunc(r * m) as real) < m
  {
    var x := r * m;
    assert 0.0 <= x by {
      MulLeq(0.0, r, m);
      assert 0.0 * m == 0.0;
    }
    assert x < m by {
      MulLess(r, 1.0, m);
      assert 1.0 * m == m;
    }
  }

  /** numpy's `np.random.randint(n)` for the uniform draw r in [0, 1): `int(r * n)`, an index below n. */
  function RandInt(r: real, n: nat): (k: nat)
    requires 0.0 <= r < 1.0 && n > 0
    ensures k < n
  {
    DrawBelow(r, n as real);
    Trunc(r * n as real)
  }
}
