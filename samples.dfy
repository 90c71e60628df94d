/** numpy's `linspace(start, stop, num)` with its default `endpoint=True`,
    over exact reals instead of floating point. */
module Samples {
  import opened Wrappers
  import opened Text
  import opened Values

  /** How far sample `k` of `num >= 2` lies from the lower bound: `k * (hi - lo) / (num - 1)`. */
  function Offset(lo: real, hi: real, num: nat, k: nat): real
    requires num >= 2
  {
    (k as real) * (hi - lo) / ((num - 1) as real)
  }

  /** `num` evenly spaced values from `lo` to `hi` inclusive: element `k` is
      `lo + k * (hi - lo) / (num - 1)`; one value is `[lo]`, none is `[]`. */
  function LinearSamples(lo: real, hi: real, num: nat): (r: seq<real>)
    ensures |r| == num
  {
    if num == 0 then []
    else if num == 1 then [lo]
    else seq(num, k requires 0 <= k < num => lo + Offset(lo, hi, num, k))
  }

  /** With at least two steps both bounds are present: first the lower, last the upper. */
  lemma Endpoints(lo: real, hi: real, num: nat)
    ensures num >= 1 ==> LinearSamples(lo, hi, num)[0] == lo
    ensures num >= 2 ==> LinearSamples(lo, hi, num)[num - 1] == hi
  {
    if num >= 2 {
      Cancel((num - 1) as real, hi - lo);
      assert Offset(lo, hi, num, num - 1) == hi - lo;
      assert Offset(lo, hi, num, 0) == 0.0;
    }
  }

  /** Neighbouring samples are one step `(hi - lo) / (num - 1)` apart. */
  lemma UniformSpacing(lo: real, hi: real, num: nat, k: nat)
    requires k + 1 < num
    ensures LinearSamples(lo, hi, num)[k + 1] - LinearSamples(lo, hi, num)[k]
            == (hi - lo) / ((num - 1) as real)
  {
    var x, w, d := k as real, hi - lo, (num - 1) as real;
    assert (k + 1) as real == x + 1.0;
    NextQuotient(x, w, d);
    assert Offset(lo, hi, num, k + 1) == (x + 1.0) * w / d;
    assert Offset(lo, hi, num, k + 1) == Offset(lo, hi, num, k) + w / d;
  }

  lemma Cancel(d: real, w: real)
    requires d > 0.0
    ensures d * w / d == w
  {
  }

  lemma NextQuotient(x: real, w: real, d: real)
    requires d > 0.0
    ensures (x + 1.0) * w / d == x * w / d + w / d
  {
    assert (x + 1.0) * w == x * w + w;
  }

  /** For `lo <= hi` the samples never decrease. */
  lemma {:induction false} NonDecreasing(lo: real, hi: real, num: nat, a: nat, b: nat)
    requires lo <= hi && a <= b < num
    ensures LinearSamples(lo, hi, num)[a] <= LinearSamples(lo, hi, num)[b]
    decreases b - a
  {
    if a < b {
      NonDecreasing(lo, hi, num, a, b - 1);
      UniformSpacing(lo, hi, num, b - 1);
      StepNonNegative(hi - lo, (num - 1) as real);
    }
  }

  lemma StepNonNegative(w: real, d: real)
    requires 0.0 <= w && 0.0 < d
    ensures 0.0 <= w / d
  {
  }

  /** `linspace(0.5, 0.9, 3)` is `[0.5, 0.7, 0.9]`. */
  lemma YieldFactorSamples()
    ensures LinearSamples(0.5, 0.9, 3) == [0.5, 0.7, 0.9]
  {
    var r := LinearSamples(0.5, 0.9, 3);
    assert r[1] == 0.5 + 1.0 * 0.4 / 2.0;
    assert r[2] == 0.5 + 2.0 * 0.4 / 2.0;
  }

  /** numpy's `asanyarray(x) * 1.0` on a bound: numbers become reals, anything else raises. */
  function AsReal(v: Value): (r: Result<real, Error>)
    ensures r.Ok? <==> v.Int? || v.Float?
    ensures v.Int? ==> r == Ok(v.i as real)
    ensures v.Float? ==> r == Ok(v.r)
  {
    match v
    case Int(i) => Ok(i as real)
    case Float(x) => Ok(x)
    case _ => Err(TypeError)
  }

  /** `linspace(start, stop, num)`: `num` must be an int (`TypeError` otherwise)
      and non-negative (`ValueError` otherwise), checked before the bounds are
      converted. */
  function Linspace(start: Value, stop: Value, num: Value): (r: Result<seq<real>, Error>)
    ensures r.Ok? <==> num.Int? && num.i >= 0 && AsReal(start).Ok? && AsReal(stop).Ok?
    ensures !num.Int? ==> r == Err(TypeError)
    ensures num.Int? && num.i < 0 ==> r.Err? && r.error.ValueError?
    ensures r.Ok? ==> |r.value| == num.i
    ensures r.Ok? ==> r.value == LinearSamples(AsReal(start).value, AsReal(stop).value, num.i)
    ensures r.Ok? && num.i >= 1 ==> r.value[0] == AsReal(start).value
    ensures r.Ok? && num.i >= 2 ==> r.value[num.i - 1] == AsReal(stop).value
    ensures r.Ok? && AsReal(start).value <= AsReal(stop).value ==>
              forall a, b :: 0 <= a <= b < |r.value| ==> r.value[a] <= r.value[b]
  {
    if !num.Int? then Err(TypeError)
    else if num.i < 0 then
      Err(ValueError("Number of samples, " + IntToString(num.i) + ", must be non-negative."))
    else
      var lo :- AsReal(start);
      var hi :- AsReal(stop);
      Endpoints(lo, hi, num.i);
      assert lo <= hi ==> forall a, b :: 0 <= a <= b < num.i ==> LinearSamples(lo, hi, num.i)[a] <= LinearSamples(lo, hi, num.i)[b] by {
        if lo <= hi {
          forall a, b | 0 <= a <= b < num.i
            ensures LinearSamples(lo, hi, num.i)[a] <= LinearSamples(lo, hi, num.i)[b]
          {
            NonDecreasing(lo, hi, num.i, a, b);
          }
        }
      }
      Ok(LinearSamples(lo, hi, num.i))
  }
}
