/** Small shared vocabulary: optional values, results with an error value,
    and the real-number helpers the Python code spells with min, max and abs. */
module Common {

  /** Python's `None` or a value. */
  datatype Option<+T> = None | Some(value: T) {
    function GetOr(default: T): T {
      match this
      case Some(v) => v
      case None => default
    }
  }

  /** A value, or the exception the Python code raises instead. */
  datatype Result<+T, +E> = Ok(value: T) | Err(error: E)

  /** `d.get(k, 0.0)` on a dict of floats. */
  function Get<K>(d: map<K, real>, k: K): real {
    if k in d then d[k] else 0.0
  }

  function Min(a: real, b: real): (r: real)
    ensures r <= a && r <= b && (r == a || r == b)
  {
    if a <= b then a else b
  }

  function Max(a: real, b: real): (r: real)
    ensures r >= a && r >= b && (r == a || r == b)
  {
    if a >= b then a else b
  }

  function Abs(x: real): (r: real)
    ensures r >= 0.0 && (r == x || r == -x)
  {
    if x < 0.0 then -x else x
  }

  /** `max(lo, min(hi, x))`, the clamping idiom used throughout the source. */
  function Clamp(x: real, lo: real, hi: real): (r: real)
    requires lo <= hi
    ensures lo <= r <= hi
    ensures lo <= x <= hi ==> r == x
    ensures x < lo ==> r == lo
    ensures x > hi ==> r == hi
  {
    Max(lo, Min(hi, x))
  }

  /** `sqrt` is a square root on the non-negative reals: Python's `math.sqrt`
      is outside the model and is passed in as a function with this property. */
  ghost predicate IsSqrt(sqrt: real -> real) {
    forall x: real {:trigger sqrt(x)} :: 0.0 <= x ==> 0.0 <= sqrt(x) && sqrt(x) * sqrt(x) == x
  }

  /** Python's truncating `int(x)` of a float. */
  function Trunc(x: real): (n: int)
    ensures x >= 0.0 ==> n as real <= x < n as real + 1.0
    ensures x < 0.0 ==> n as real - 1.0 < x <= n as real
  {
    if x >= 0.0 then x.Floor else -((-x).Floor)
  }

  /** A ratio of a non-negative amount to a positive total it does not
      exceed lies in [0,1]. */
  lemma RatioBounds(a: real, b: real)
    requires 0.0 <= a <= b && b > 0.0
    ensures 0.0 <= a / b <= 1.0
  {
    assert a / b * b == a;
  }

  /** Scaling by a factor in [0,1] keeps a non-negative amount within [0, w]. */
  lemma ScaleBounds(w: real, f: real)
    requires w >= 0.0 && 0.0 <= f <= 1.0
    ensures 0.0 <= w * f <= w
  {
    assert w * f <= w * 1.0;
  }

  /** Multiplying and then dividing by the same non-zero amount is the identity. */
  lemma MulDivCancel(w: real, x: real)
    requires w != 0.0
    ensures w * x / w == x
  {
  }
}
