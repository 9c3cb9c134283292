/** Shared vocabulary: optional values, integer sums, and the decimal rounding the
    engine uses. */
module Common {

  datatype Option<+T> = None | Some(value: T)

  // ----- arithmetic --------------------------------------------------------------

  lemma MulLe(a: int, b: int, c: int)
    requires a <= b && c >= 0
    ensures a * c <= b * c
  {
    assert (b - a) * c >= 0;
  }

  lemma MulLeReal(a: real, b: real, c: real)
    requires a <= b && c >= 0.0
    ensures a * c <= b * c
  {
    assert (b - a) * c >= 0.0;
  }

  lemma DivLe(x: real, y: real, d: real)
    requires x <= y && d > 0.0
    ensures x / d <= y / d
  {
    assert (y - x) / d >= 0.0;
    assert (y - x) / d == y / d - x / d;
  }

  lemma DivModUnique(x: int, d: int, q: int, r: int)
    requires d > 0 && x == q * d + r && 0 <= r < d
    ensures q == x / d && r == x % d
  {
    var q', r' := x / d, x % d;
    assert x == q' * d + r';
    if q > q' {
      MulLe(q' + 1, q, d);
    } else if q < q' {
      MulLe(q + 1, q', d);
    }
  }

  predicate Aligned(v: int, step: int)
    requires step > 0
  {
    v % step == 0
  }

  lemma MultipleAligned(k: int, step: int)
    requires step > 0
    ensures Aligned(k * step, step) && (k * step) / step == k
  {
    DivModUnique(k * step, step, k, 0);
  }

  lemma AlignedSum(a: int, b: int, step: int)
    requires step > 0 && Aligned(a, step) && Aligned(b, step)
    ensures Aligned(a + b, step) && Aligned(a - b, step)
    ensures a < b ==> a + step <= b
  {
    var p, q := a / step, b / step;
    DivModUnique(a + b, step, p + q, 0);
    DivModUnique(a - b, step, p - q, 0);
    if a < b {
      if q <= p {
        MulLe(q, p, step);
      } else {
        MulLe(p + 1, q, step);
      }
    }
  }

  // ----- sums --------------------------------------------------------------------

  /** Sum of a sequence, taken from the right so that it unfolds along a loop that
      appends. */
  function Sum(s: seq<int>): int {
    if s == [] then 0 else Sum(s[..|s| - 1]) + s[|s| - 1]
  }

  lemma SumPrefix(s: seq<int>, i: nat)
    requires i < |s|
    ensures Sum(s[..i + 1]) == Sum(s[..i]) + s[i]
  {
    assert s[..i + 1][..i] == s[..i];
  }

  lemma SumSnoc(s: seq<int>, v: int)
    ensures Sum(s + [v]) == Sum(s) + v
  {
    assert (s + [v])[..|s|] == s;
  }

  lemma {:induction false} SumUpdate(s: seq<int>, i: nat, v: int)
    requires i < |s|
    ensures Sum(s[i := v]) == Sum(s) - s[i] + v
  {
    var n := |s| - 1;
    if i == n {
      assert s[i := v][..n] == s[..n];
    } else {
      assert s[i := v][..n] == s[..n][i := v];
      SumUpdate(s[..n], i, v);
    }
  }

  /** A sequence whose entries are all at most m, one of them strictly, sums below
      |s| * m. */
  lemma {:induction false} SumAtMost(s: seq<int>, m: int)
    requires forall i :: 0 <= i < |s| ==> s[i] <= m
    ensures Sum(s) <= |s| * m
    ensures (exists i :: 0 <= i < |s| && s[i] < m) ==> Sum(s) < |s| * m
  {
    if s != [] {
      var n := |s| - 1;
      SumAtMost(s[..n], m);
      assert |s| * m == n * m + m;
      if i :| 0 <= i < |s| && s[i] < m {
        if i < n {
          assert s[..n][i] < m;
        }
      }
    }
  }

  lemma {:induction false} SumNonNegative(s: seq<int>)
    requires forall i :: 0 <= i < |s| ==> s[i] >= 0
    ensures Sum(s) >= 0
    ensures forall i :: 0 <= i < |s| ==> s[i] <= Sum(s)
  {
    if s != [] {
      var n := |s| - 1;
      SumNonNegative(s[..n]);
      assert forall i :: 0 <= i < n ==> s[i] == s[..n][i];
    }
  }

  lemma {:induction false} SumConcat(a: seq<int>, b: seq<int>)
    ensures Sum(a + b) == Sum(a) + Sum(b)
  {
    if b == [] {
      assert a + b == a;
    } else {
      var n := |b| - 1;
      assert (a + b)[..|a + b| - 1] == a + b[..n];
      SumConcat(a, b[..n]);
    }
  }

  /** Sum of decimals. */
  function SumReal(s: seq<real>): real {
    if s == [] then 0.0 else SumReal(s[..|s| - 1]) + s[|s| - 1]
  }

  lemma SumRealPrefix(s: seq<real>, i: nat)
    requires i < |s|
    ensures SumReal(s[..i + 1]) == SumReal(s[..i]) + s[i]
  {
    assert s[..i + 1][..i] == s[..i];
  }

  /** decimal.Round(x, 0, MidpointRounding.AwayFromZero). */
  function RoundAway(x: real): (r: int)
    ensures x - 0.5 <= r as real <= x + 0.5
    ensures x == x.Floor as real ==> r == x.Floor
  {
    if x >= 0.0 then (x + 0.5).Floor else -((0.5 - x).Floor)
  }

  function Pow10(digits: nat): (p: int)
    ensures p >= 1
  {
    if digits == 0 then 1 else 10 * Pow10(digits - 1)
  }

  function Scaled(x: real, digits: nat): real { x * Pow10(digits) as real }

  /** decimal.Round(x, digits, MidpointRounding.AwayFromZero). */
  function RoundTo(x: real, digits: nat): real {
    RoundAway(Scaled(x, digits)) as real / Pow10(digits) as real
  }

  /** C# integer division and remainder truncate toward zero. */
  function Quotient(a: int, b: int): int
    requires b > 0
  {
    if a >= 0 then a / b else -((-a) / b)
  }

  /** v / step * step: the multiple of the step at or toward zero from v. */
  function StepDown(v: int, step: int): (d: int)
    requires step > 0
    ensures v >= 0 ==> v - step < d <= v && d >= 0
  {
    assert v >= 0 ==> v / step * step == v - v % step && 0 <= v - v % step;
    Quotient(v, step) * step
  }

  lemma StepDownAligned(v: int, step: int)
    requires step > 0
    ensures Aligned(StepDown(v, step), step)
    ensures v >= 0 && Aligned(v, step) ==> StepDown(v, step) == v
  {
    MultipleAligned(Quotient(v, step), step);
  }

  function MaxReal(a: real, b: real): real { if a >= b then a else b }
  function MinReal(a: real, b: real): real { if a <= b then a else b }
  function Abs(x: real): real { if x >= 0.0 then x else -x }
}
