/**
 * Value types and numeric helpers shared by every module of the model.
 * Python floats are modelled as Dafny reals; the rounding the services
 * apply before returning numbers is modelled by `Round`.
 */
module Common {

  datatype Option<T> = None | Some(value: T)

  /** Python's `d.get(k)`: the value stored under `k`, or None. */
  function Get<K, V>(d: map<K, V>, k: K): (r: Option<V>)
    ensures r.Some? <==> k in d
    ensures r.Some? ==> r.value == d[k]
  {
    if k in d then Some(d[k]) else None
  }

  /** Python's `d.get(k, default)`. */
  function GetOr<K, V>(d: map<K, V>, k: K, default: V): (r: V)
    ensures k in d ==> r == d[k]
    ensures k !in d ==> r == default
  {
    if k in d then d[k] else default
  }

  /** Python's slice `s[:n]`: the first min(n, len(s)) elements, in order. */
  function Prefix<T>(s: seq<T>, n: nat): (r: seq<T>)
    ensures |r| == (if |s| <= n then |s| else n) && r == s[..|r|]
    ensures |s| <= n ==> r == s
  {
    if |s| <= n then s else s[..n]
  }

  function Max(a: real, b: real): (r: real)
    ensures r >= a && r >= b && (r == a || r == b)
  {
    if a >= b then a else b
  }

  function Min(a: real, b: real): (r: real)
    ensures r <= a && r <= b && (r == a || r == b)
  {
    if a <= b then a else b
  }

  function Abs(x: real): (r: real)
    ensures r >= 0.0 && (r == x || r == -x)
  {
    if x >= 0.0 then x else -x
  }

  /**
   * `max(lo, min(hi, x))`, the clamp every service writes out by hand
   * (scripts/build_features_understat_v5.py names it `_clamp`).
   */
  function Clamp(x: real, lo: real, hi: real): (r: real)
    ensures lo <= hi ==> lo <= r <= hi
    ensures lo <= x <= hi ==> r == x
    ensures x < lo ==> r == lo
    ensures lo <= hi < x ==> r == hi
  {
    Max(lo, Min(hi, x))
  }

  /** The number of `1/scale` units `x` rounds to, half-up. */
  function Units(x: real, scale: nat): int
    requires scale > 0
  {
    (x * scale as real + 0.5).Floor
  }

  /**
   * Rounding to `1/scale` (scale 100 is `round(x, 2)`), half-up.
   * The result is within half a unit of the last place of `x`.
   */
  function Round(x: real, scale: nat): (r: real)
    requires scale > 0
    ensures x * scale as real - 0.5 < r * scale as real <= x * scale as real + 0.5
  {
    Units(x, scale) as real / scale as real
  }

  /**
   * Rounding never leaves an interval whose ends lie on the rounding grid
   * (`l/scale` and `h/scale`, such as 0.15 and 0.85 for scale 100).
   */
  lemma RoundWithin(x: real, l: int, h: int, scale: nat)
    requires scale > 0
    requires l as real / scale as real <= x <= h as real / scale as real
    ensures l as real / scale as real <= Round(x, scale) <= h as real / scale as real
  {
    var sc := scale as real;
    ScaleUp(l as real, x, sc);
    ScaleUpHi(h as real, x, sc);
    FloorBetween(x * sc, l, h);
    var n := Units(x, scale);
    assert l <= n <= h;
    DivMono(l as real, n as real, sc);
    DivMono(n as real, h as real, sc);
  }

  lemma ScaleUp(a: real, x: real, c: real)
    requires c > 0.0 && a / c <= x
    ensures a <= x * c
  {
    MulMono(a / c, x, c);
  }

  lemma ScaleUpHi(a: real, x: real, c: real)
    requires c > 0.0 && x <= a / c
    ensures x * c <= a
  {
    MulMono(x, a / c, c);
  }

  /** Half-up rounding of a value between two whole numbers stays between them. */
  lemma FloorBetween(y: real, l: int, h: int)
    requires l as real <= y <= h as real
    ensures l <= (y + 0.5).Floor <= h
  {
    var n := (y + 0.5).Floor;
    assert n as real <= y + 0.5 < n as real + 1.0;
  }

  lemma MulMono(a: real, b: real, c: real)
    requires a <= b && c >= 0.0
    ensures a * c <= b * c
  {
  }

  lemma DivMono(a: real, b: real, c: real)
    requires a <= b && c > 0.0
    ensures a / c <= b / c
  {
  }

  function Sum(s: seq<real>): real
  {
    if s == [] then 0.0 else s[0] + Sum(s[1..])
  }

  function Product(s: seq<real>): real
  {
    if s == [] then 1.0 else s[0] * Product(s[1..])
  }

  lemma {:induction false} SumAppend(s: seq<real>, x: real)
    ensures Sum(s + [x]) == Sum(s) + x
  {
    if s == [] {
      assert s + [x] == [x];
    } else {
      assert (s + [x])[1..] == s[1..] + [x];
      SumAppend(s[1..], x);
    }
  }

  lemma {:induction false} ProductAppend(s: seq<real>, x: real)
    ensures Product(s + [x]) == Product(s) * x
  {
    if s == [] {
      assert s + [x] == [x];
    } else {
      assert (s + [x])[1..] == s[1..] + [x];
      ProductAppend(s[1..], x);
    }
  }
}
