/** The pure helpers of js/solarSystem.js: camera easing and transitions,
  * procedural noise, the colour-string conversion of the nebula glow texture,
  * the image-noise pass, the quality tiers and the tap classifier. */
module Procedural {
  import opened Common
  import Registry

  // ---------------------------------------------------------------- easing

  function Cube(x: real): real
  {
    x * x * x
  }

  /** `easeInOutCubic(t)`; `Math.pow(-2t + 2, 3)` is the exact cube here. */
  function EaseInOutCubic(t: real): real
  {
    if t < 0.5 then 4.0 * t * t * t else 1.0 - Cube(-2.0 * t + 2.0) / 2.0
  }

  lemma CubeMonotone(a: real, b: real)
    requires 0.0 <= a <= b
    ensures 0.0 <= Cube(a) <= Cube(b)
  {
    assert 0.0 <= a * a <= b * b by {
      assert a * a <= a * b;
      assert a * b <= b * b;
    }
    assert a * a * a <= b * b * b by {
      assert a * a * a <= b * b * a;
      assert b * b * a <= b * b * b;
    }
  }

  /** The easing fixes 0, 1/2 and 1. */
  lemma EaseFixedPoints()
    ensures EaseInOutCubic(0.0) == 0.0
    ensures EaseInOutCubic(0.5) == 0.5
    ensures EaseInOutCubic(1.0) == 1.0
  {
    assert Cube(1.0) == 1.0;
    assert Cube(0.0) == 0.0;
  }

  /** The easing maps [0,1] into [0,1], strictly below 1/2 on the first half. */
  lemma EaseRange(t: real)
    requires 0.0 <= t <= 1.0
    ensures 0.0 <= EaseInOutCubic(t) <= 1.0
    ensures t < 0.5 ==> EaseInOutCubic(t) < 0.5
    ensures t >= 0.5 ==> EaseInOutCubic(t) >= 0.5
  {
    if t < 0.5 {
      CubeMonotone(t, 0.5);
      assert 4.0 * t * t * t == 4.0 * Cube(t);
    } else {
      CubeMonotone(-2.0 * t + 2.0, 1.0);
    }
  }

  /** The easing is monotone on [0,1]. */
  lemma EaseMonotone(s: real, t: real)
    requires 0.0 <= s <= t <= 1.0
    ensures EaseInOutCubic(s) <= EaseInOutCubic(t)
  {
    EaseRange(s);
    EaseRange(t);
    if t < 0.5 {
      CubeMonotone(s, t);
      assert 4.0 * s * s * s == 4.0 * Cube(s);
      assert 4.0 * t * t * t == 4.0 * Cube(t);
    } else if s >= 0.5 {
      CubeMonotone(-2.0 * t + 2.0, -2.0 * s + 2.0);
    }
  }

  // ---------------------------------------------------------- transitions

  /** One call of `animateCameraTo`: the camera position and orbit target
    * when it was called, and the requested ones. */
  datatype Transition = Transition(startPos: Vec3, startTarget: Vec3, endPos: Vec3, endTarget: Vec3)

  const TransitionDuration: real := 1500.0

  /** `Math.min(elapsed / duration, 1)`. */
  function Progress(elapsed: real): (p: real)
    ensures p <= 1.0
    ensures elapsed >= 0.0 ==> 0.0 <= p
    ensures p == 1.0 <==> elapsed >= TransitionDuration
  {
    Min(elapsed / TransitionDuration, 1.0)
  }

  /** A frame of the transition requests another frame exactly while progress is below 1. */
  predicate Reschedules(elapsed: real)
  {
    Progress(elapsed) < 1.0
  }

  function CameraAt(tr: Transition, elapsed: real): Vec3
  {
    Lerp(tr.startPos, tr.endPos, EaseInOutCubic(Progress(elapsed)))
  }

  function TargetAt(tr: Transition, elapsed: real): Vec3
  {
    Lerp(tr.startTarget, tr.endTarget, EaseInOutCubic(Progress(elapsed)))
  }

  /** The first frame (elapsed 0) leaves the camera where it was. */
  lemma TransitionStarts(tr: Transition)
    ensures CameraAt(tr, 0.0) == tr.startPos && TargetAt(tr, 0.0) == tr.startTarget
    ensures Reschedules(0.0)
  {
    EasedStart();
    var e := EaseInOutCubic(Progress(0.0));
    assert Lerp(tr.startPos, tr.endPos, e) == tr.startPos;
    assert Lerp(tr.startTarget, tr.endTarget, e) == tr.startTarget;
  }

  /** At elapsed 0 the eased progress is 0. */
  lemma EasedStart()
    ensures Progress(0.0) == 0.0 && EaseInOutCubic(Progress(0.0)) == 0.0
  {
    assert 0.0 / TransitionDuration == 0.0;
    EaseFixedPoints();
  }

  /** From 1500 ms on, camera and target are exactly the requested ones and no
    * further frame is scheduled. */
  lemma TransitionFinishes(tr: Transition, elapsed: real)
    requires elapsed >= TransitionDuration
    ensures CameraAt(tr, elapsed) == tr.endPos && TargetAt(tr, elapsed) == tr.endTarget
    ensures !Reschedules(elapsed)
  {
    EaseFixedPoints();
  }

  /** `v` lies on the closed segment from `a` to `b`. */
  predicate Between(v: real, a: real, b: real)
  {
    (a <= v <= b) || (b <= v <= a)
  }

  /** Along the way the camera stays inside the box spanned by start and end,
    * and each axis moves monotonically from the start value to the end value. */
  lemma TransitionStaysBetween(tr: Transition, e1: real, e2: real)
    requires 0.0 <= e1 <= e2
    ensures Between(CameraAt(tr, e1).x, tr.startPos.x, tr.endPos.x)
    ensures Between(CameraAt(tr, e1).y, tr.startPos.y, tr.endPos.y)
    ensures Between(CameraAt(tr, e1).z, tr.startPos.z, tr.endPos.z)
    ensures tr.startPos.x <= tr.endPos.x ==> CameraAt(tr, e1).x <= CameraAt(tr, e2).x
    ensures tr.startPos.x >= tr.endPos.x ==> CameraAt(tr, e1).x >= CameraAt(tr, e2).x
    ensures tr.startPos.y <= tr.endPos.y ==> CameraAt(tr, e1).y <= CameraAt(tr, e2).y
    ensures tr.startPos.y >= tr.endPos.y ==> CameraAt(tr, e1).y >= CameraAt(tr, e2).y
    ensures tr.startPos.z <= tr.endPos.z ==> CameraAt(tr, e1).z <= CameraAt(tr, e2).z
    ensures tr.startPos.z >= tr.endPos.z ==> CameraAt(tr, e1).z >= CameraAt(tr, e2).z
  {
    EasedWeights(e1, e2);
    LerpBetween(tr.startPos, tr.endPos, EaseInOutCubic(Progress(e1)), EaseInOutCubic(Progress(e2)));
  }

  /** One axis at two weights: inside the segment from `a` to `b`, and
    * moved further towards `b` at the second weight. */
  predicate AxisMoves(v1: real, v2: real, a: real, b: real)
  {
    Between(v1, a, b) && (a <= b ==> v1 <= v2) && (a >= b ==> v1 >= v2)
  }

  /** A lerp with weight in [0,1] stays in the box of its ends, and a larger
    * weight moves each axis further towards the end. */
  lemma LerpBetween(a: Vec3, b: Vec3, w1: real, w2: real)
    requires 0.0 <= w1 <= w2 <= 1.0
    ensures AxisMoves(Lerp(a, b, w1).x, Lerp(a, b, w2).x, a.x, b.x)
    ensures AxisMoves(Lerp(a, b, w1).y, Lerp(a, b, w2).y, a.y, b.y)
    ensures AxisMoves(Lerp(a, b, w1).z, Lerp(a, b, w2).z, a.z, b.z)
  {
    LerpX(a, b, w1, w2);
    LerpY(a, b, w1, w2);
    LerpZ(a, b, w1, w2);
  }

  // One lemma per axis keeps each proof's arithmetic small.
  lemma LerpX(a: Vec3, b: Vec3, w1: real, w2: real)
    requires 0.0 <= w1 <= w2 <= 1.0
    ensures AxisMoves(Lerp(a, b, w1).x, Lerp(a, b, w2).x, a.x, b.x)
  {
    LerpAxis(a.x, b.x, w1, w2);
  }

  lemma LerpY(a: Vec3, b: Vec3, w1: real, w2: real)
    requires 0.0 <= w1 <= w2 <= 1.0
    ensures AxisMoves(Lerp(a, b, w1).y, Lerp(a, b, w2).y, a.y, b.y)
  {
    LerpAxis(a.y, b.y, w1, w2);
  }

  lemma LerpZ(a: Vec3, b: Vec3, w1: real, w2: real)
    requires 0.0 <= w1 <= w2 <= 1.0
    ensures AxisMoves(Lerp(a, b, w1).z, Lerp(a, b, w2).z, a.z, b.z)
  {
    LerpAxis(a.z, b.z, w1, w2);
  }

  /** The eased weights of two instants are ordered like the instants. */
  lemma EasedWeights(e1: real, e2: real)
    requires 0.0 <= e1 <= e2
    ensures 0.0 <= EaseInOutCubic(Progress(e1)) <= EaseInOutCubic(Progress(e2)) <= 1.0
  {
    var p1 := Progress(e1);
    var p2 := Progress(e2);
    assert e1 / TransitionDuration <= e2 / TransitionDuration;
    assert 0.0 <= p1 <= p2 <= 1.0;
    EaseRange(p1);
    EaseRange(p2);
    EaseMonotone(p1, p2);
  }

  lemma LerpAxis(a: real, b: real, w1: real, w2: real)
    requires 0.0 <= w1 <= w2 <= 1.0
    ensures AxisMoves(a + (b - a) * w1, a + (b - a) * w2, a, b)
  {
    if a <= b {
      StepUp(a, b, w1);
    } else {
      StepDown(a, b, w1);
    }
    WeightMonotone(a, b, w1, w2);
  }

  /** Multiplying by a non-negative factor keeps the order. */
  lemma ScaleMonotone(c: real, u: real, v: real)
    requires c >= 0.0 && u <= v
    ensures c * u <= c * v
  {
    assert c * v - c * u == c * (v - u);
  }

  /** The offset `(b - a)·w` of a lerp with weight in [0,1] towards a larger end. */
  lemma StepUp(a: real, b: real, w: real)
    requires 0.0 <= w <= 1.0 && a <= b
    ensures 0.0 <= (b - a) * w <= b - a
  {
    var c := b - a;
    ScaleMonotone(c, w, 1.0);
    ScaleMonotone(c, 0.0, w);
    assert c * 1.0 == c && c * 0.0 == 0.0;
    assert 0.0 <= c * w <= c;
  }

  /** The same towards a smaller end. */
  lemma StepDown(a: real, b: real, w: real)
    requires 0.0 <= w <= 1.0 && b <= a
    ensures b - a <= (b - a) * w <= 0.0
  {
    StepUp(b, a, w);
    Negated(a, b, w);
  }

  lemma Negated(a: real, b: real, w: real)
    ensures (b - a) * w == -((a - b) * w)
  {
  }

  /** A larger weight moves a lerp further towards its end. */
  lemma WeightMonotone(a: real, b: real, w1: real, w2: real)
    requires w1 <= w2
    ensures a <= b ==> a + (b - a) * w1 <= a + (b - a) * w2
    ensures b <= a ==> a + (b - a) * w1 >= a + (b - a) * w2
  {
    if a <= b {
      ScaleMonotone(b - a, w1, w2);
    } else {
      var c := a - b;
      ScaleMonotone(c, w1, w2);
      assert (b - a) * w1 == -(c * w1);
      assert (b - a) * w2 == -(c * w2);
    }
  }

  // ---------------------------------------------------------------- noise

  /** `smoothNoise(x, y, seed)`: the fractional part of a scaled sine. */
  function SmoothNoise(x: real, y: real, seed: real, sin: real -> real): (r: real)
    ensures 0.0 <= r < 1.0
  {
    var n := sin(x * 12.9898 + y * 78.233 + seed) * 43758.5453;
    n - (n.Floor as real)
  }

  /** The accumulator variables of `fractalNoise` after its first `i` iterations. */
  datatype Octaves = Octaves(total: real, maxValue: real, amplitude: real, frequency: real)

  /** A product kept as a term of its own, so that equal factors give equal
    * sample points without the solver's nonlinear reasoning. */
  function Mul(a: real, b: real): real
  {
    a * b
  }

  /** One iteration of the loop of `fractalNoise`, the `k`-th (from 0). */
  function Octave(o: Octaves, x: real, y: real, persistence: real, sin: real -> real, k: nat): Octaves
  {
    Octaves(o.total + SmoothNoise(Mul(x, o.frequency), Mul(y, o.frequency), k as real * 1000.0, sin) * o.amplitude,
            o.maxValue + o.amplitude,
            o.amplitude * persistence,
            o.frequency * 2.0)
  }

  function Accumulate(x: real, y: real, persistence: real, sin: real -> real, i: nat): Octaves
  {
    if i == 0 then Octaves(0.0, 0.0, 1.0, 1.0)
    else Octave(Accumulate(x, y, persistence, sin, i - 1), x, y, persistence, sin, i - 1)
  }

  /** `total / maxValue`; `None` stands for the NaN or infinity of a zero divisor. */
  function Average(o: Octaves): Option<real>
  {
    if o.maxValue == 0.0 then None else Some(o.total / o.maxValue)
  }

  /** `fractalNoise(x, y, octaves, persistence)`: the loop runs for
    * `i = 0 .. octaves - 1` and none of it for `octaves <= 0`. */
  method FractalNoise(x: real, y: real, octaves: int, persistence: real, sin: real -> real)
    returns (r: Option<real>)
    ensures r == Average(Accumulate(x, y, persistence, sin, if octaves < 0 then 0 else octaves))
  {
    var total := 0.0;
    var frequency := 1.0;
    var amplitude := 1.0;
    var maxValue := 0.0;
    var i := 0;
    while i < octaves
      invariant 0 <= i <= (if octaves < 0 then 0 else octaves)
      invariant Accumulate(x, y, persistence, sin, i) == Octaves(total, maxValue, amplitude, frequency)
    {
      total := total + SmoothNoise(Mul(x, frequency), Mul(y, frequency), i as real * 1000.0, sin) * amplitude;
      maxValue := maxValue + amplitude;
      amplitude := amplitude * persistence;
      frequency := frequency * 2.0;
      i := i + 1;
    }
    assert i == (if octaves < 0 then 0 else octaves);
    r := if maxValue == 0.0 then None else Some(total / maxValue);
  }

  /** A weight `w >= 0` times a sample in [0,1) lies in [0, w], strictly below a positive `w`. */
  lemma WeightedSample(n: real, w: real)
    requires 0.0 <= n < 1.0 && w >= 0.0
    ensures 0.0 <= n * w <= w
    ensures w > 0.0 ==> n * w < w
  {
    assert w - n * w == (1.0 - n) * w;
  }

  /** The bounds the accumulator keeps: a non-negative amplitude and a total
    * within [0, maxValue], strictly below it once one octave has been added. */
  predicate Bounded(o: Octaves, started: bool)
  {
    o.amplitude >= 0.0 && 0.0 <= o.total <= o.maxValue &&
    (started ==> o.total < o.maxValue && o.maxValue >= 1.0)
  }

  /** One octave keeps the bounds: a sample in [0,1) weighted by a
    * non-negative amplitude adds at most that amplitude to the total. */
  lemma OctaveBounded(o: Octaves, x: real, y: real, persistence: real, sin: real -> real, k: nat, started: bool)
    requires persistence >= 0.0 && Bounded(o, started)
    requires !started ==> o == Octaves(0.0, 0.0, 1.0, 1.0)
    ensures Bounded(Octave(o, x, y, persistence, sin, k), true)
  {
    var n := SmoothNoise(Mul(x, o.frequency), Mul(y, o.frequency), k as real * 1000.0, sin);
    SampleBounded(o, n, persistence, started);
  }

  lemma SampleBounded(o: Octaves, n: real, persistence: real, started: bool)
    requires 0.0 <= n < 1.0 && persistence >= 0.0 && Bounded(o, started)
    requires !started ==> o == Octaves(0.0, 0.0, 1.0, 1.0)
    ensures Bounded(Octaves(o.total + n * o.amplitude, o.maxValue + o.amplitude, o.amplitude * persistence, o.frequency * 2.0), true)
  {
    WeightedSample(n, o.amplitude);
    NonNegativeProduct(o.amplitude, persistence);
  }

  /** With a non-negative persistence the amplitudes stay non-negative and the
    * weighted sum of noise values in [0,1) stays below the sum of the weights. */
  lemma {:induction false} AccumulateBounds(x: real, y: real, persistence: real, sin: real -> real, i: nat)
    requires persistence >= 0.0
    ensures Bounded(Accumulate(x, y, persistence, sin, i), i >= 1)
  {
    if i > 0 {
      AccumulateBounds(x, y, persistence, sin, i - 1);
      OctaveBounded(Accumulate(x, y, persistence, sin, i - 1), x, y, persistence, sin, i - 1, i >= 2);
    }
  }

  /** With at least one octave and a non-negative persistence, `fractalNoise`
    * is a weighted average of `smoothNoise` values and lies in [0,1). */
  lemma FractalNoiseInUnitInterval(x: real, y: real, octaves: nat, persistence: real, sin: real -> real)
    requires octaves >= 1 && persistence >= 0.0
    ensures Average(Accumulate(x, y, persistence, sin, octaves)).Some?
    ensures 0.0 <= Average(Accumulate(x, y, persistence, sin, octaves)).value < 1.0
  {
    AccumulateBounds(x, y, persistence, sin, octaves);
    var o := Accumulate(x, y, persistence, sin, octaves);
    assert o.total / o.maxValue < 1.0 by {
      assert o.total < o.maxValue;
      assert o.total / o.maxValue * o.maxValue == o.total;
    }
  }

  /** A single octave is `smoothNoise` itself; no octave at all is a 0/0. */
  lemma FractalNoiseDegenerate(x: real, y: real, persistence: real, sin: real -> real)
    ensures Average(Accumulate(x, y, persistence, sin, 1)) == Some(SmoothNoise(x, y, 0.0, sin))
    ensures Average(Accumulate(x, y, persistence, sin, 0)).None?
  {
    assert Accumulate(x, y, persistence, sin, 0) == Octaves(0.0, 0.0, 1.0, 1.0);
  }

  // ---------------------------------------------------------------- image noise

  /** One element of a `Uint8ClampedArray`. */
  newtype byte = x: int | 0 <= x < 256

  /** Rounding to the nearest integer, ties to the even one, as a
    * `Uint8ClampedArray` store does. */
  function RoundHalfEven(v: real): (r: int)
    ensures -0.5 <= r as real - v <= 0.5
  {
    var f := v.Floor;
    var d := v - f as real;
    if d < 0.5 then f else if d > 0.5 then f + 1 else if f % 2 == 0 then f else f + 1
  }

  /** Storing a number into a `Uint8ClampedArray` element: clamp to [0,255],
    * then round half to even. */
  function Store(v: real): (b: byte)
    ensures v <= 0.0 ==> b == 0
    ensures v >= 255.0 ==> b == 255
    ensures 0.0 <= v <= 255.0 ==> -0.5 <= b as real - v <= 0.5
  {
    if v <= 0.0 then 0
    else if v >= 255.0 then 255
    else
      var f := v.Floor;
      assert 0 <= f <= 254;
      RoundHalfEven(v) as byte
  }

  lemma RoundMonotone(u: real, v: real)
    requires u <= v
    ensures RoundHalfEven(u) <= RoundHalfEven(v)
  {
    var fu, fv := u.Floor, v.Floor;
    if fu < fv {
      assert RoundHalfEven(u) <= fu + 1 <= fv <= RoundHalfEven(v);
    }
  }

  /** Storing keeps the order of the stored values. */
  lemma StoreMonotone(u: real, v: real)
    requires u <= v
    ensures Store(u) <= Store(v)
  {
    if 0.0 < u && v < 255.0 {
      RoundMonotone(u, v);
    }
  }

  /** A whole number in range is stored as itself. */
  lemma StoreExact(b: byte)
    ensures Store(b as real) == b
  {
  }

  /** The noise value of one pixel: `(Math.random() - 0.5) * scale`. */
  function Noise(draw: real, scale: real): real
  {
    (draw - 0.5) * scale
  }

  /** `data[i] = Math.min(255, Math.max(0, data[i] + noise))`. */
  function Channel(b: byte, noise: real): byte
  {
    Store(Min(255.0, Max(0.0, b as real + noise)))
  }

  /** Element `j` after the pass: channels R, G and B of pixel `j / 4` are
    * shifted by that pixel's noise; every alpha byte is kept. */
  function NoisedAt(prev: seq<byte>, scale: real, draws: seq<real>, j: nat): byte
    requires j < |prev| && |draws| == (|prev| + 3) / 4
  {
    if j % 4 == 3 then prev[j] else Channel(prev[j], Noise(draws[j / 4], scale))
  }

  function Noised(prev: seq<byte>, scale: real, draws: seq<real>): (r: seq<byte>)
    requires |draws| == (|prev| + 3) / 4
    ensures |r| == |prev|
  {
    seq(|prev|, (j: int) requires 0 <= j < |prev| => NoisedAt(prev, scale, draws, j))
  }

  /** `generateNoise` on the image buffer: one draw per pixel, in pixel order.
    * Writes past the end of a typed array are ignored, so a trailing partial
    * pixel has only its existing channels updated. */
  method GenerateNoise(data: array<byte>, scale: real, draws: seq<real>)
    requires |draws| == (data.Length + 3) / 4
    modifies data
    ensures data[..] == Noised(old(data[..]), scale, draws)
  {
    ghost var prev := data[..];
    ghost var k := 0;
    var i := 0;
    while i < data.Length
      invariant 0 <= i <= data.Length + 3 && i == 4 * k
      invariant forall j :: 0 <= j < data.Length ==>
                  data[j] == if j < i then NoisedAt(prev, scale, draws, j) else prev[j]
    {
      assert i / 4 == k < |draws|;
      var noise := Noise(draws[i / 4], scale);
      PixelOf(k);
      ghost var mid := data[..];
      NoisePixel(data, i, noise);
      forall j | 0 <= j < data.Length
        ensures data[j] == if j < i + 4 then NoisedAt(prev, scale, draws, j) else prev[j]
      {
        if i <= j < i + 4 {
          assert mid[j] == prev[j];
        } else {
          assert data[j] == mid[j];
        }
      }
      i, k := i + 4, k + 1;
    }
    assert data[..] == Noised(prev, scale, draws);
  }

  /** The loop body: channels R, G and B of the pixel at `i`, as far as the
    * buffer reaches. */
  method NoisePixel(data: array<byte>, i: nat, noise: real)
    requires i < data.Length
    modifies data
    ensures forall j :: 0 <= j < data.Length ==>
              data[j] == if i <= j < i + 3 then Channel(old(data[j]), noise) else old(data[j])
  {
    data[i] := Channel(data[i], noise);
    if i + 1 < data.Length {
      data[i + 1] := Channel(data[i + 1], noise);
    }
    if i + 2 < data.Length {
      data[i + 2] := Channel(data[i + 2], noise);
    }
  }

  /** The four bytes of pixel `k` are at offsets 4k .. 4k+3. */
  lemma PixelOf(k: nat)
    ensures forall j :: 4 * k <= j < 4 * k + 4 ==> j / 4 == k && j % 4 == j - 4 * k
  {
    forall j | 4 * k <= j < 4 * k + 4
      ensures j / 4 == k && j % 4 == j - 4 * k
    {
      assert j == 4 * k + (j - 4 * k);
    }
  }

  /** The pass keeps the buffer length and every alpha byte. */
  lemma NoiseKeepsAlpha(prev: seq<byte>, scale: real, draws: seq<real>, j: nat)
    requires |draws| == (|prev| + 3) / 4
    requires j < |prev| && j % 4 == 3
    ensures |Noised(prev, scale, draws)| == |prev|
    ensures Noised(prev, scale, draws)[j] == prev[j]
  {
  }

  /** Every colour byte ends within half a unit of its old value plus the
    * pixel's noise, clamped to [0,255]. */
  lemma NoiseShiftsChannel(prev: seq<byte>, scale: real, draws: seq<real>, j: nat)
    requires |draws| == (|prev| + 3) / 4
    requires j < |prev| && j % 4 != 3
    ensures var v := Min(255.0, Max(0.0, prev[j] as real + Noise(draws[j / 4], scale)));
            -0.5 <= Noised(prev, scale, draws)[j] as real - v <= 0.5
  {
  }

  /** The three colour bytes of one pixel share one noise value, so their
    * order is kept. */
  lemma NoiseKeepsChannelOrder(prev: seq<byte>, scale: real, draws: seq<real>, j: nat, k: nat)
    requires |draws| == (|prev| + 3) / 4
    requires j < |prev| && k < |prev| && j / 4 == k / 4 && j % 4 != 3 && k % 4 != 3
    requires prev[j] <= prev[k]
    ensures Noised(prev, scale, draws)[j] <= Noised(prev, scale, draws)[k]
  {
    var n := Noise(draws[j / 4], scale);
    StoreMonotone(Min(255.0, Max(0.0, prev[j] as real + n)), Min(255.0, Max(0.0, prev[k] as real + n)));
  }

  /** A zero scale leaves the image as it was. */
  lemma NoiseZeroScale(prev: seq<byte>, draws: seq<real>)
    requires |draws| == (|prev| + 3) / 4
    ensures Noised(prev, 0.0, draws) == prev
  {
    forall j | 0 <= j < |prev|
      ensures Noised(prev, 0.0, draws)[j] == prev[j]
    {
      assert Noise(draws[j / 4], 0.0) == 0.0;
      StoreExact(prev[j]);
    }
  }

  // ---------------------------------------------------------------- quality tiers

  /** `qualitySetting`: the three named tiers, and every other string. */
  datatype Quality = Ultra | High | Medium | Other

  function QualityOf(s: string): (q: Quality)
    ensures q == Other <==> s != "ultra" && s != "high" && s != "medium"
  {
    if s == "ultra" then Ultra else if s == "high" then High else if s == "medium" then Medium else Other
  }

  /** The tier's position, best first. */
  function Rank(q: Quality): nat
  {
    match q
    case Ultra => 0
    case High => 1
    case Medium => 2
    case Other => 3
  }

  /** Sphere segments of a planet (`createPlanet`). */
  function SphereSegments(q: Quality): nat
  {
    match q
    case Ultra => 64
    case High => 48
    case Medium => 32
    case Other => 24
  }

  /** Particles of the asteroid belt (`createAsteroidBelt`). */
  function AsteroidCount(q: Quality): nat
  {
    match q
    case Ultra => 5000
    case High => 3000
    case Medium => 2000
    case Other => 1000
  }

  /** A better tier never has fewer segments or asteroids, and a strictly
    * better one has strictly more of both. */
  lemma QualityOrdered(p: Quality, q: Quality)
    ensures Rank(p) <= Rank(q) ==> SphereSegments(p) >= SphereSegments(q) && AsteroidCount(p) >= AsteroidCount(q)
    ensures Rank(p) < Rank(q) ==> SphereSegments(p) > SphereSegments(q) && AsteroidCount(p) > AsteroidCount(q)
  {
  }

  /** The constructor's `'medium'`, the setting in force when `init` builds the planets. */
  const InitialQuality: string := "medium"

  lemma DefaultQuality()
    ensures SphereSegments(QualityOf(InitialQuality)) == 32
    ensures AsteroidCount(QualityOf(InitialQuality)) == 2000
  {
  }

  // ---------------------------------------------------------------- asteroid belt

  /** `90 + Math.random() * 20`. */
  function AsteroidRadius(draw: real): real
  {
    90.0 + draw * 20.0
  }

  /** A draw in [0,1) puts the asteroid in [90,110): beyond Mars's orbit and
    * inside Jupiter's. */
  lemma AsteroidBetweenMarsAndJupiter(draw: real)
    requires 0.0 <= draw < 1.0
    ensures 90.0 <= AsteroidRadius(draw) < 110.0
    ensures Registry.BodyOrbit(Registry.Mars).Some?
    ensures Registry.BodyOrbit(Registry.Mars).value.orbitRadius < AsteroidRadius(draw)
    ensures Registry.BodyOrbit(Registry.Jupiter).Some?
    ensures AsteroidRadius(draw) < Registry.BodyOrbit(Registry.Jupiter).value.orbitRadius
  {
  }

  // ---------------------------------------------------------------- taps

  /** What a touch that ends does to the hovered planet. */
  datatype TapAction = Ignore | Select(name: string) | Focus(name: string)

  /** The result of `onTouchEnd`: the action and the new `lastTapTime`. */
  datatype Tap = Tap(action: TapAction, lastTapTime: real)

  /** `onTouchEnd`, with both `Date.now()` readings taken as `now`. */
  function TapDecision(touchStart: real, lastTap: real, now: real, hovered: Option<string>): Tap
  {
    if now - touchStart < 300.0 then
      if now - lastTap < 300.0 && hovered.Some? then Tap(Focus(hovered.value), 0.0)
      else if hovered.Some? then Tap(Select(hovered.value), now)
      else Tap(Ignore, lastTap)
    else Tap(Ignore, lastTap)
  }

  /** A long press or a tap on empty space does nothing and keeps the last
    * tap time; a short tap on a planet selects it, or focuses it when the
    * previous tap was less than 300 ms ago. */
  lemma TapCases(touchStart: real, lastTap: real, now: real, hovered: Option<string>)
    ensures var t := TapDecision(touchStart, lastTap, now, hovered);
            (t.action == Ignore <==> now - touchStart >= 300.0 || hovered.None?) &&
            (t.action == Ignore ==> t.lastTapTime == lastTap) &&
            (t.action.Focus? <==> now - touchStart < 300.0 && now - lastTap < 300.0 && hovered.Some?) &&
            (t.action.Focus? ==> t.action.name == hovered.value && t.lastTapTime == 0.0) &&
            (t.action.Select? ==> t.action.name == hovered.value && t.lastTapTime == now)
  {
  }

  /** Two short taps on one planet, the second within 300 ms of the first,
    * select then focus it, provided the first tap was not itself a double tap. */
  lemma DoubleTap(lastTap: real, s1: real, t1: real, s2: real, t2: real, name: string)
    requires t1 - s1 < 300.0 && t1 - lastTap >= 300.0
    requires t2 - s2 < 300.0 && t2 - t1 < 300.0
    ensures TapDecision(s1, lastTap, t1, Some(name)) == Tap(Select(name), t1)
    ensures TapDecision(s2, t1, t2, Some(name)) == Tap(Focus(name), 0.0)
  {
  }
}
