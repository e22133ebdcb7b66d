/** Shared vocabulary of the market-analytics model: optional values, the
    JavaScript rounding helpers the dashboard relies on, and the strike ladder
    that every option-chain generator builds with a counting loop. */
module Common {

  datatype Option<+T> = None | Some(value: T)

  /** A draw of `Math.random()`: a real number in [0, 1). */
  predicate Unit(d: real) {
    0.0 <= d < 1.0
  }

  function Abs(x: real): real {
    if x < 0.0 then -x else x
  }

  function Max(a: real, b: real): real {
    if a >= b then a else b
  }

  function Min(a: real, b: real): real {
    if a <= b then a else b
  }

  /** `Math.floor` on a number, giving the integer below it. */
  function Floor(x: real): (n: int)
    ensures n as real <= x < n as real + 1.0
  {
    x.Floor
  }

  /** `Math.round`: JavaScript rounds halves up, i.e. floor(x + 0.5). */
  function Round(x: real): (n: int)
    ensures x - 0.5 < n as real <= x + 0.5
  {
    Floor(x + 0.5)
  }

  /** The nearest multiple of `step` to `x` (a whole number of steps), as `Math.round(x / step) * step`. */
  function RoundToStep(x: real, step: real): (m: real)
    requires step > 0.0
    ensures Abs(m - x) <= step / 2.0
    ensures (m / step).Floor as real == m / step
  {
    var n := Round(x / step);
    NearestMultiple(x, step, n);
    var r := n as real;
    DivCancels(r, step);
    assert (r * step) / step == r;
    r * step
  }

  lemma DivCancels(a: real, s: real)
    requires s > 0.0
    ensures (a * s) / s == a
  {
    var q := (a * s) / s;
    assert q * s == a * s;
    assert (q - a) * s == 0.0;
  }

  lemma NearestMultiple(x: real, step: real, n: int)
    requires step > 0.0
    requires x / step - 0.5 < n as real <= x / step + 0.5
    ensures Abs(n as real * step - x) <= step / 2.0
  {
    var q := x / step;
    assert q * step == x;
    assert (q + 0.5) * step == x + step / 2.0;
    assert (q - 0.5) * step == x - step / 2.0;
    MulLe(n as real, q + 0.5, step);
    MulLt(q - 0.5, n as real, step);
  }

  lemma MulLe(a: real, b: real, c: real)
    requires a <= b && c > 0.0
    ensures a * c <= b * c
  {
    assert b * c - a * c == (b - a) * c;
  }

  lemma MulLt(a: real, b: real, c: real)
    requires a < b && c > 0.0
    ensures a * c < b * c
  {
    assert b * c - a * c == (b - a) * c;
  }

  /** The strikes `atm + i * step` for `i = -half .. half`, pushed one by one
      as the generators' `for` loops do. */
  method Ladder(atm: real, step: real, half: nat) returns (strikes: seq<real>)
    ensures |strikes| == 2 * half + 1
    ensures forall k :: 0 <= k < |strikes| ==> strikes[k] == atm + (k - half) as real * step
  {
    strikes := [];
    var i := -(half as int);
    while i <= half
      invariant -(half as int) <= i <= half + 1
      invariant |strikes| == i + half
      invariant forall k :: 0 <= k < |strikes| ==> strikes[k] == atm + (k - half) as real * step
    {
      strikes := strikes + [atm + i as real * step];
      i := i + 1;
    }
  }

  /** Ladder rungs strictly increase by `step` and only the middle one is `atm`. */
  lemma LadderShape(strikes: seq<real>, atm: real, step: real, half: nat)
    requires step > 0.0
    requires |strikes| == 2 * half + 1
    requires forall k :: 0 <= k < |strikes| ==> strikes[k] == atm + (k - half) as real * step
    ensures forall k :: 0 < k < |strikes| ==> strikes[k] == strikes[k - 1] + step
    ensures forall k :: 0 <= k < |strikes| ==> (strikes[k] == atm <==> k == half)
  {
    forall k | 0 <= k < |strikes|
      ensures strikes[k] == atm <==> k == half
    {
      if k != half {
        assert (k - half) as real != 0.0;
        assert (k - half) as real * step != 0.0;
      }
    }
  }
}
