/**
 * Shared vocabulary for the orchestrator model: optional values and error
 * results (the source's `None` and raised exceptions), the real-number helpers
 * the Python code gets from `min`, `max`, `abs`, `sum` and `round`, and the
 * index arithmetic of Python slices.
 */
module Common {

  datatype Option<+T> = None | Some(value: T) {
    function GetOr(default: T): T {
      match this
      case Some(v) => v
      case None => default
    }
  }

  /** A value or the exception the source raises instead. */
  datatype Result<+T, +E> = Ok(value: T) | Err(error: E)

  /** Success or the exception raised by a check that returns nothing. */
  datatype Outcome<+E> = Pass | Fail(error: E)

  // ---------------------------------------------------------------------
  // Reals: min, max, abs and the clamp `max(lo, min(hi, x))`
  // ---------------------------------------------------------------------

  function Min(a: real, b: real): (r: real)
    ensures r <= a && r <= b
    ensures r == a || r == b
  {
    if a <= b then a else b
  }

  function Max(a: real, b: real): (r: real)
    ensures r >= a && r >= b
    ensures r == a || r == b
  {
    if a >= b then a else b
  }

  function Abs(x: real): (r: real)
    ensures r >= 0.0
    ensures r == x || r == -x
  {
    if x < 0.0 then -x else x
  }

  /** Python's `max(lo, min(hi, x))`. */
  function Clamp(lo: real, hi: real, x: real): (r: real)
    requires lo <= hi
    ensures lo <= r <= hi
    ensures lo <= x <= hi ==> r == x
    ensures x < lo ==> r == lo
    ensures x > hi ==> r == hi
  {
    Max(lo, Min(hi, x))
  }

  /** `dict.get(key, default)` on a map. */
  function Get<K, V>(m: map<K, V>, key: K, default: V): (r: V)
    ensures key in m ==> r == m[key]
    ensures key !in m ==> r == default
  {
    if key in m then m[key] else default
  }

  // ---------------------------------------------------------------------
  // Aggregates over a list of reals: sum, mean, min, max
  // ---------------------------------------------------------------------

  function Sum(s: seq<real>): real
  {
    if s == [] then 0.0 else s[0] + Sum(s[1..])
  }

  function Mean(s: seq<real>): real
    requires |s| > 0
  {
    Sum(s) / (|s| as real)
  }

  /** Python's `min(s)` on a non-empty list. */
  function SeqMin(s: seq<real>): (r: real)
    requires |s| > 0
    ensures r in s
    ensures forall i :: 0 <= i < |s| ==> r <= s[i]
  {
    if |s| == 1 then s[0]
    else
      var m := SeqMin(s[1..]);
      assert forall i :: 1 <= i < |s| ==> s[i] == s[1..][i - 1];
      Min(s[0], m)
  }

  /** Python's `max(s)` on a non-empty list. */
  function SeqMax(s: seq<real>): (r: real)
    requires |s| > 0
    ensures r in s
    ensures forall i :: 0 <= i < |s| ==> s[i] <= r
  {
    if |s| == 1 then s[0]
    else
      var m := SeqMax(s[1..]);
      assert forall i :: 1 <= i < |s| ==> s[i] == s[1..][i - 1];
      Max(s[0], m)
  }

  /** A sum of values that are each at least `lo` is at least `|s| * lo`, and dually for `hi`. */
  lemma {:induction false} SumBetween(s: seq<real>, lo: real, hi: real)
    requires forall i :: 0 <= i < |s| ==> lo <= s[i] <= hi
    ensures (|s| as real) * lo <= Sum(s) <= (|s| as real) * hi
  {
    if s != [] {
      assert forall i :: 0 <= i < |s| - 1 ==> s[1..][i] == s[i + 1];
      SumBetween(s[1..], lo, hi);
    }
  }

  /** Dividing by a positive count preserves bounds: `n * lo <= a` gives `lo <= a / n`. */
  lemma DivideBounds(a: real, n: real, lo: real, hi: real)
    requires n > 0.0
    requires n * lo <= a <= n * hi
    ensures lo <= a / n <= hi
  {
    assert a / n - lo == (a - n * lo) / n;
    assert hi - a / n == (n * hi - a) / n;
  }

  /** The mean of values that all lie in `[lo, hi]` lies in `[lo, hi]`. */
  lemma MeanBetween(s: seq<real>, lo: real, hi: real)
    requires |s| > 0
    requires forall i :: 0 <= i < |s| ==> lo <= s[i] <= hi
    ensures lo <= Mean(s) <= hi
  {
    SumBetween(s, lo, hi);
    DivideBounds(Sum(s), |s| as real, lo, hi);
  }

  /** The mean of a non-empty list lies between its minimum and maximum. */
  lemma MeanBetweenMinMax(s: seq<real>)
    requires |s| > 0
    ensures SeqMin(s) <= Mean(s) <= SeqMax(s)
  {
    MeanBetween(s, SeqMin(s), SeqMax(s));
  }

  lemma SumOfThree(a: real, b: real, c: real)
    ensures Sum([a, b, c]) == a + b + c
  {
    assert [a, b, c][1..] == [b, c];
    assert [b, c][1..] == [c];
    assert [c][1..] == [];
    assert Sum([c]) == c;
    assert Sum([b, c]) == b + c;
  }

  lemma {:induction false} SumAppend(s: seq<real>, x: real)
    ensures Sum(s + [x]) == Sum(s) + x
  {
    if s != [] {
      assert (s + [x])[1..] == s[1..] + [x];
      SumAppend(s[1..], x);
    }
  }

  // ---------------------------------------------------------------------
  // Sum of the values of a dictionary: `sum(d.values())`
  // ---------------------------------------------------------------------

  /** The sum of a map's values; the order in which keys are taken does not matter (SumValuesRemove). */
  ghost function SumValues(m: map<string, real>): real
    decreases |m|
  {
    if m == map[] then 0.0
    else
      var k :| k in m;
      assert |m - {k}| < |m| by { assert (m - {k}).Keys == m.Keys - {k}; }
      m[k] + SumValues(m - {k})
  }

  lemma {:induction false} SumValuesRemove(m: map<string, real>, k: string)
    requires k in m
    ensures SumValues(m) == m[k] + SumValues(m - {k})
    decreases |m|
  {
    var j :| j in m && SumValues(m) == m[j] + SumValues(m - {j});
    if j != k {
      assert (m - {j}).Keys == m.Keys - {j};
      assert (m - {k}).Keys == m.Keys - {k};
      SumValuesRemove(m - {j}, k);
      SumValuesRemove(m - {k}, j);
      assert m - {j} - {k} == m - {k} - {j};
    }
  }

  /** `sum(d.values())`, computed by visiting the keys one at a time in any order. */
  method SumOfValues(m: map<string, real>) returns (s: real)
    ensures s == SumValues(m)
  {
    var rest := m;
    s := 0.0;
    while rest != map[]
      invariant s + SumValues(rest) == SumValues(m)
      decreases |rest|
    {
      var k :| k in rest;
      SumValuesRemove(rest, k);
      assert (rest - {k}).Keys == rest.Keys - {k};
      s := s + rest[k];
      rest := rest - {k};
    }
  }

  /** The sum of a dictionary with three distinct keys. */
  lemma SumValuesOfThree(a: string, x: real, b: string, y: real, c: string, z: real)
    requires a != b && b != c && a != c
    ensures SumValues(map[a := x, b := y, c := z]) == x + y + z
  {
    var m := map[a := x, b := y, c := z];
    SumValuesRemove(m, a);
    var m1 := m - {a};
    assert m1 == map[b := y, c := z];
    SumValuesRemove(m1, b);
    var m2 := m1 - {b};
    assert m2 == map[c := z];
    SumValuesRemove(m2, c);
    assert m2 - {c} == map[];
  }

  lemma SumValuesOfNone()
    ensures SumValues(map[]) == 0.0
  {
  }

  // ---------------------------------------------------------------------
  // Python slice bounds
  // ---------------------------------------------------------------------

  /** How Python turns a slice bound `i` into a position in a list of length `n`. */
  function SliceBound(i: int, n: nat): (r: nat)
    ensures r <= n
    ensures i >= 0 ==> r == if i <= n then i else n
    ensures i < 0 ==> r == if n + i >= 0 then n + i else 0
  {
    if i < 0 then (if n + i >= 0 then n + i else 0)
    else if i <= n then i else n
  }

  /** Python's `s[-k:]`. Note `s[-0:]` is the whole list. */
  function PyTail<T>(s: seq<T>, k: int): (r: seq<T>)
  {
    s[SliceBound(-k, |s|)..]
  }

  /** For a positive `k`, `s[-k:]` is the last `min(k, |s|)` elements. */
  lemma PyTailPositive<T>(s: seq<T>, k: int)
    requires k >= 1
    ensures |PyTail(s, k)| == if k <= |s| then k else |s|
    ensures PyTail(s, k) == s[|s| - |PyTail(s, k)|..]
  {
  }

  /** `s[-0:]` keeps every element. */
  lemma PyTailZero<T>(s: seq<T>)
    ensures PyTail(s, 0) == s
  {
  }

  // ---------------------------------------------------------------------
  // Python's round(x, n) on exact reals (ties to even)
  // ---------------------------------------------------------------------

  /** The nearest integer to `x`; a tie goes to the even neighbour. */
  function RoundHalfEven(x: real): (r: int)
    ensures x - 0.5 <= r as real <= x + 0.5
    ensures r == x.Floor || r == x.Floor + 1
  {
    var f := x.Floor;
    var frac := x - f as real;
    if frac < 0.5 then f
    else if frac > 0.5 then f + 1
    else if f % 2 == 0 then f
    else f + 1
  }

  /** Python's `round(x, digits)` with `scale == 10^digits`. */
  function RoundTo(x: real, scale: nat): real
    requires scale > 0
  {
    RoundHalfEven(x * scale as real) as real / scale as real
  }

  /** Multiplying both sides of an inequality by a positive factor. */
  lemma ScaleBothSides(a: real, b: real, c: real)
    requires c > 0.0
    ensures a <= b <==> a * c <= b * c
  {
    assert b * c - a * c == (b - a) * c;
  }

  /** Rounding to an integer never crosses an integer. */
  lemma RoundHalfEvenGrid(y: real, k: int)
    ensures y >= k as real ==> RoundHalfEven(y) >= k
    ensures y <= k as real ==> RoundHalfEven(y) <= k
  {
  }

  /** The grid step of RoundToGrid: bounds on `x * s` carry over to `x` and `n / s`. */
  lemma GridArith(x: real, s: real, k: real, n: real)
    requires s > 0.0
    requires x * s >= k ==> n >= k
    requires x * s <= k ==> n <= k
    ensures x >= k / s ==> n / s >= k / s
    ensures x <= k / s ==> n / s <= k / s
  {
    var g := k / s;
    assert g * s == k;
    assert n / s * s == n;
    ScaleBothSides(g, x, s);
    ScaleBothSides(x, g, s);
    ScaleBothSides(g, n / s, s);
    ScaleBothSides(n / s, g, s);
  }

  /** Rounding never crosses a value that lies on the rounding grid. */
  lemma RoundToGrid(x: real, k: int, scale: nat)
    requires scale > 0
    ensures x >= k as real / scale as real ==> RoundTo(x, scale) >= k as real / scale as real
    ensures x <= k as real / scale as real ==> RoundTo(x, scale) <= k as real / scale as real
  {
    RoundToUnfold(x, scale);
    RoundHalfEvenGrid(x * scale as real, k);
    GridArith(x, scale as real, k as real, RoundHalfEven(x * scale as real) as real);
  }

  lemma RoundToUnfold(x: real, scale: nat)
    requires scale > 0
    ensures RoundTo(x, scale) == RoundHalfEven(x * scale as real) as real / scale as real
  {
  }
}
