/** `fade(fadeIn, fadeOut)` and `torque(input, duration, fade)`: an
    animation whose cycle runs from 0 to 1 every `duration` seconds; the
    feature whose input is at the cycle shows fully, and it fades in over
    `fadeIn` before and out over `fadeOut` after, in cycle units scaled by
    the duration. */
module Torque {
  import opened Wrappers
  import opened Types
  import opened Ast
  import opened Arith

  const DefaultFade: real := 0.15
  const DefaultDuration: real := 10.0

  /** `new Fade(param1, param2)`: an omitted `fadeIn` is 0.15 and an
      omitted `fadeOut` equals `fadeIn`; both are implicitly cast. There is
      no type check. */
  function MakeFade(param1: Lit, param2: Lit): (e: Expr)
    ensures e.Fade? && LooseType(e) == Some(TFade)
    ensures param1.LUndefined? ==> e.fadeIn == Number(DefaultFade)
    ensures !param1.LUndefined? ==> Some(e.fadeIn) == ImplicitCast(param1)
    ensures param2.LUndefined? ==> e.fadeOut == e.fadeIn
    ensures !param2.LUndefined? ==> Some(e.fadeOut) == ImplicitCast(param2)
  {
    var fadeIn := if param1.LUndefined? then LNum(DefaultFade) else param1;
    var fadeOut := if param2.LUndefined? then fadeIn else param2;
    Fade(ImplicitCast(fadeIn).value, ImplicitCast(fadeOut).value)
  }

  /** The `duration` argument: omitted, a finite number, or anything for
      which `Number.isFinite` is false (NaN, an infinity, a non-number). */
  datatype DurationArg = DurationDefault | DurationNum(x: real) | DurationNotFinite

  /** `new Torque(input, duration, fade)`: a non-finite duration is refused;
      a bare property input is normalised to [0, 1] by
      `linear(input, globalMin(input), globalMax(input))`; the fade defaults
      to `fade()`. */
  function MakeTorque(input: Expr, duration: DurationArg, fade: Option<Expr>): (r: Result<Expr>)
    ensures r.Err? <==> duration.DurationNotFinite?
    ensures r.Ok? ==> r.value.Torque?
    ensures r.Ok? ==> r.value.duration == if duration.DurationNum? then duration.x else DefaultDuration
    ensures r.Ok? && input.Property? ==>
      r.value.input == Linear(input, GlobalMin(input.name), GlobalMax(input.name))
    ensures r.Ok? && !input.Property? ==> r.value.input == input
    ensures r.Ok? ==> r.value.fade == if fade.Some? then fade.value else Fade(Number(DefaultFade), Number(DefaultFade))
  {
    if duration.DurationNotFinite? then Err("Torque(): invalid second parameter, duration.")
    else
      var d := if duration.DurationNum? then duration.x else DefaultDuration;
      var inp := if input.Property? then Linear(input, GlobalMin(input.name), GlobalMax(input.name)) else input;
      var f := if fade.Some? then fade.value else MakeFade(LUndefined, LUndefined);
      Ok(Torque(inp, d, f))
  }

  /** Scaling a span by a factor in [0, 1] stays within the span. */
  lemma ScaledWithin(c: real, span: real)
    ensures 0.0 <= c <= 1.0 && span >= 0.0 ==> 0.0 <= c * span <= span
  {
    if 0.0 <= c <= 1.0 && span >= 0.0 {
      MulNonneg(c, span);
      MulNonneg(1.0 - c, span);
      assert (1.0 - c) * span == span - c * span;
    }
  }

  /** The remainder of `x` by `y` with quotient `q` truncated to `t`. */
  lemma RemainderWithin(x: real, y: real, q: real, t: real)
    requires y > 0.0 && x == y * q && t <= q < t + 1.0
    ensures 0.0 <= x - y * t < y
  {
    RemainderBelow(x, y, q, t);
    MulNonneg(y, q - t);
    assert y * (q - t) == y * q - y * t;
  }

  lemma RemainderBelow(x: real, y: real, q: real, t: real)
    requires y > 0.0 && x == y * q && t <= q < t + 1.0
    ensures x - y * t < y
  {
    var u := t + 1.0 - q;
    MulPos(y, u);
    assert y * u == y * t + y - y * q;
    assert y * t + y - y * q > 0.0;
    assert y * t + y - x > 0.0;
  }

  /** A quotient of values in [0, y) by y lies in [0, 1). */
  lemma QuotientWithin(r: real, y: real)
    requires y > 0.0 && 0.0 <= r < y
    ensures 0.0 <= r / y < 1.0
  {
    var c := r / y;
    assert c * y == r;
    if c >= 1.0 {
      MulNonneg(c - 1.0, y);
    }
    if c < 0.0 {
      MulPos(-c, y);
    }
  }

  /** For a non-negative time and a positive duration the remainder lies
      in [0, duration). */
  lemma JsRemBounds(x: real, y: real)
    requires y != 0.0
    ensures x >= 0.0 && y > 0.0 ==> 0.0 <= JsRem(x, y) < y
    ensures x >= 0.0 && y > 0.0 ==> 0.0 <= JsRem(x, y) / y < 1.0
  {
    if x >= 0.0 && y > 0.0 {
      var q := x / y;
      RemainderWithin(x, y, q, q.Floor as real);
      QuotientWithin(JsRem(x, y), y);
    }
  }

  /** `_cycle`: `div(mod(now(), duration), duration)`, with `now` in
      seconds; a zero duration gives NaN. */
  function Cycle(now: real, duration: real): (c: Value)
    ensures c.NaN? <==> duration == 0.0
    ensures now >= 0.0 && duration > 0.0 ==> c.Num? && 0.0 <= c.x < 1.0
  {
    if duration == 0.0 then NaN
    else
      JsRemBounds(now, duration);
      Num(JsRem(now, duration) / duration)
  }

  /** `x / f` clamped to [0, 1], with JavaScript's division by zero: an
      infinity clamps to an end, `0 / 0` is NaN. */
  function ClampedRatio(x: real, f: real): (v: Value)
    ensures v.Num? ==> 0.0 <= v.x <= 1.0
    ensures v.NaN? <==> x == 0.0 && f == 0.0
  {
    if f != 0.0 then Num(Clamp(x / f, 0.0, 1.0))
    else if x > 0.0 then Num(1.0)
    else if x < 0.0 then Num(0.0)
    else NaN
  }

  /** Distance between input and cycle, scaled by the duration. */
  function Distance(input: real, cycle: real, duration: real): real
  {
    Abs(input - cycle) * duration
  }

  /** `eval`: one minus the distance between input and cycle, scaled by the
      duration and divided by the fade on the input's side, clamped. Only
      that fade is read: a missing input, cycle or chosen fade gives NaN,
      and the fade on the other side plays no part. */
  function Eval(input: Value, cycle: Value, duration: real, fadeIn: Value, fadeOut: Value): (v: Value)
    ensures v.Num? ==> 0.0 <= v.x <= 1.0
    ensures !(input.Num? && cycle.Num? && (if input.x > cycle.x then fadeIn else fadeOut).Num?) ==> v.NaN?
  {
    if !(input.Num? && cycle.Num?) then NaN
    else
      var fade := if input.x > cycle.x then fadeIn else fadeOut;
      if !fade.Num? then NaN
      else
        match ClampedRatio(Distance(input.x, cycle.x, duration), fade.x)
        case Num(t) => Num(1.0 - t)
        case _ => NaN
  }

  /** The fade on the other side of the cycle is never read: replacing it,
      even by a missing value, leaves the result unchanged. */
  lemma OtherFadeUnused(input: Value, cycle: Value, duration: real, fadeIn: Value, fadeOut: Value, other: Value)
    ensures input.Num? && cycle.Num? && input.x > cycle.x ==>
      Eval(input, cycle, duration, fadeIn, other) == Eval(input, cycle, duration, fadeIn, fadeOut)
    ensures input.Num? && cycle.Num? && input.x <= cycle.x ==>
      Eval(input, cycle, duration, other, fadeOut) == Eval(input, cycle, duration, fadeIn, fadeOut)
  {
  }

  /** A feature exactly at the cycle position shows fully even when its
      fade-in is missing, since only the fade-out is used there. */
  lemma MissingFadeInAtCycle()
    ensures Eval(Num(0.5), Num(0.5), 10.0, Undef, Num(0.3)) == Num(1.0)
  {
    assert Distance(0.5, 0.5, 10.0) == 0.0;
  }

  lemma DistanceSign(input: real, cycle: real, duration: real)
    requires duration > 0.0
    ensures Distance(input, cycle, duration) >= 0.0
    ensures Distance(input, cycle, duration) == 0.0 <==> input == cycle
  {
    MulNonneg(Abs(input - cycle), duration);
    if input != cycle {
      MulPos(Abs(input - cycle), duration);
    }
  }

  /** A non-negative ratio to a positive fade reaches 1 exactly at the fade. */
  lemma RatioVsOne(d: real, f: real)
    requires d >= 0.0 && f > 0.0
    ensures d / f >= 0.0 && (d / f < 1.0 <==> d < f)
  {
    DivMonotone(0.0, d, f);
    assert f / f == 1.0;
    if d < f {
      DivMonotone(d, f, f);
    } else {
      DivMonotone(f, d, f);
    }
  }

  /** The pulse: with a positive duration and positive fades the result is
      1 at the cycle, positive exactly within the fade window of the
      input's side, and falls off as a straight line inside it. */
  lemma Pulse(input: real, cycle: real, duration: real, fadeIn: real, fadeOut: real)
    requires duration > 0.0 && fadeIn > 0.0 && fadeOut > 0.0
    ensures input == cycle ==> Eval(Num(input), Num(cycle), duration, Num(fadeIn), Num(fadeOut)) == Num(1.0)
    ensures var f := if input > cycle then fadeIn else fadeOut;
            var d := Distance(input, cycle, duration);
            var v := Eval(Num(input), Num(cycle), duration, Num(fadeIn), Num(fadeOut));
            v.Num? && (v.x > 0.0 <==> d < f) && (d < f ==> v.x == 1.0 - d / f)
  {
    var f := if input > cycle then fadeIn else fadeOut;
    var d := Distance(input, cycle, duration);
    DistanceSign(input, cycle, duration);
    RatioVsOne(d, f);
    assert ClampedRatio(d, f) == Num(Clamp(d / f, 0.0, 1.0));
  }

  /** With a zero fade the pulse degenerates: the feature shows only exactly
      at the cycle, where the result is NaN (`0 / 0`). */
  lemma ZeroFade(input: real, cycle: real, duration: real)
    requires duration > 0.0
    ensures input != cycle ==> Eval(Num(input), Num(cycle), duration, Num(0.0), Num(0.0)) == Num(0.0)
    ensures input == cycle ==> Eval(Num(input), Num(cycle), duration, Num(0.0), Num(0.0)) == NaN
  {
    DistanceSign(input, cycle, duration);
  }

  /** `_compile`: the input must be a number and the fade a fade. */
  function CompileCheck(tinput: Option<Ty>, tfade: Option<Ty>): (r: Result<Ty>)
    ensures r.Ok? <==> tinput == Some(TNumber) && tfade == Some(TFade)
    ensures r.Ok? ==> r.value == TNumber
  {
    if tinput != Some(TNumber) then Err("Torque(): invalid first parameter, input.")
    else if tfade != Some(TFade) then Err("Torque(): invalid third parameter, fade.")
    else Ok(TNumber)
  }

  /** The GLSL of `_compile`'s inline maker; `durationText` is the
      duration's `toFixed(20)` rendering, which is not modelled. */
  function Inline(input: string, cycle: string, durationText: string, fadeIn: string, fadeOut: string): string
  {
    "(1.- clamp(abs(" + input + "-" + cycle + ")*(" + durationText + ")/(" + input + ">" + cycle +
    "? " + fadeIn + ": " + fadeOut + "), 0.,1.) )"
  }

  /** What that GLSL computes: `abs(input-cycle)*(duration)` is the
      distance, `input>cycle? fadeIn: fadeOut` picks the fade, and
      `1.- clamp(.., 0.,1.)` inverts the clamped ratio. GLSL leaves division
      by zero undefined, so the fade on the used side must be nonzero. */
  function Gpu(input: real, cycle: real, duration: real, fadeIn: real, fadeOut: real): real
    requires (if input > cycle then fadeIn else fadeOut) != 0.0
  {
    1.0 - Clamp(Distance(input, cycle, duration) / (if input > cycle then fadeIn else fadeOut), 0.0, 1.0)
  }

  /** The shader and the host agree wherever the shader is defined. */
  lemma GpuAgreesWithEval(input: real, cycle: real, duration: real, fadeIn: real, fadeOut: real)
    requires (if input > cycle then fadeIn else fadeOut) != 0.0
    ensures Eval(Num(input), Num(cycle), duration, Num(fadeIn), Num(fadeOut)) ==
            Num(Gpu(input, cycle, duration, fadeIn, fadeOut))
  {
    var f := if input > cycle then fadeIn else fadeOut;
    var x := Distance(input, cycle, duration);
    assert ClampedRatio(x, f) == Num(Clamp(x / f, 0.0, 1.0));
  }

  /** A bound of the input's range: a number, or a date as milliseconds. */
  datatype TimeValue = AtNum(x: real) | AtDate(ms: real)

  function TimeOf(t: TimeValue): real
  {
    if t.AtNum? then t.x else t.ms
  }

  /** `getSimTime`: the input's range mixed by the cycle. A numeric minimum
      gives a number, a date minimum a date; both mix the range the same
      way. An input without a range (not a `linear`) makes the source
      throw, and so does a date minimum with a numeric maximum, which has
      no `getTime`. */
  function SimTime(input: Expr, cycle: real, min: TimeValue, max: TimeValue): (r: Result<TimeValue>)
    ensures r.Err? <==> !input.Linear? || (min.AtDate? && max.AtNum?)
    ensures r.Ok? ==> (r.value.AtDate? <==> min.AtDate?)
    ensures r.Ok? ==> TimeOf(r.value) == TimeOf(min) + cycle * (TimeOf(max) - TimeOf(min))
  {
    if !input.Linear? then Err("getSimTime(): the input has no range")
    else
      var lo, hi := TimeOf(min), TimeOf(max);
      if min.AtNum? then Ok(AtNum(lo + cycle * (hi - lo)))
      else if max.AtNum? then Err("max.getTime is not a function")
      else
        assert hi * cycle + (1.0 - cycle) * lo == lo + cycle * (hi - lo);
        Ok(AtDate(hi * cycle + (1.0 - cycle) * lo))
  }

  /** The cycle's ends give the range's ends, and every cycle in [0, 1]
      gives a time inside an ascending range. */
  lemma SimTimeWithinRange(input: Expr, cycle: real, min: TimeValue, max: TimeValue)
    requires input.Linear?
    ensures var r := SimTime(input, cycle, min, max);
      r.Ok? && cycle == 0.0 ==> TimeOf(r.value) == TimeOf(min)
    ensures var r := SimTime(input, cycle, min, max);
      r.Ok? && cycle == 1.0 ==> TimeOf(r.value) == TimeOf(max)
    ensures var r := SimTime(input, cycle, min, max);
      r.Ok? && TimeOf(min) <= TimeOf(max) && 0.0 <= cycle <= 1.0 ==>
      TimeOf(min) <= TimeOf(r.value) <= TimeOf(max)
  {
    var r := SimTime(input, cycle, min, max);
    if r.Ok? {
      var lo, span := TimeOf(min), TimeOf(max) - TimeOf(min);
      assert TimeOf(r.value) == lo + cycle * span;
      if cycle == 0.0 {
        assert cycle * span == 0.0;
      }
      if cycle == 1.0 {
        assert cycle * span == span;
      }
      ScaledWithin(cycle, span);
    }
  }

  /** With a Date minimum, a numeric maximum has no `getTime`, so the call
      throws; a numeric minimum with a Date maximum still gives a number. */
  lemma SimTimeMixedBounds(input: Expr, cycle: real)
    requires input.Linear?
    ensures SimTime(input, cycle, AtDate(0.0), AtNum(1.0)).Err?
    ensures SimTime(input, cycle, AtNum(0.0), AtDate(1000.0)) == Ok(AtNum(cycle * 1000.0))
  {
  }

  lemma SimTimeMonotone(input: Expr, c1: real, c2: real, min: TimeValue, max: TimeValue)
    requires input.Linear? && c1 <= c2 && TimeOf(min) <= TimeOf(max)
    ensures var r1, r2 := SimTime(input, c1, min, max), SimTime(input, c2, min, max);
      (r1.Ok? && r2.Ok? && TimeOf(r1.value) <= TimeOf(r2.value)) || (r1.Err? && r2.Err?)
  {
    MulMonotone(c1, c2, TimeOf(max) - TimeOf(min));
  }
}
