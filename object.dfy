/**
 * Hit objects: circles, sliders and spinners read from one line of a
 * beatmap's hit-object section, each turned into a run of positions and the
 * times at which the cursor should be at them.
 */
module Objects {
  import opened Builtins
  import opened Pixels
  import opened Timing
  import opened Utils

  /** The length of one video frame at 60 frames per second, in milliseconds. */
  const FrameInterval: real := 50.0 / 3.0

  /** The difficulty settings a slider reads: its velocity multiplier, spelt as the source spells `slider_mutiplier`. */
  datatype Difficulty = Difficulty(sliderMutiplier: real)

  /**
   * A hit object after construction: its positions and their times. A slider
   * also keeps the pixel length read from its line.
   */
  datatype HitObject =
    | Circle(points: seq<Pixel>, times: seq<int>)
    | Slide(points: seq<Pixel>, times: seq<int>, length: real)
    | Spin(points: seq<Pixel>, times: seq<int>)

  /** `data[i]`, or IndexError past the end. */
  function Field(data: seq<string>, i: nat): (r: Result<string>)
    ensures r.Ok? <==> i < |data|
    ensures r.Ok? ==> r.value == data[i]
    ensures r.Err? ==> r.error == IndexError
  {
    if i < |data| then Ok(data[i]) else Err(IndexError)
  }

  function Pow2(k: nat): (p: nat)
    ensures p >= 1
  {
    if k == 0 then 1 else 2 * Pow2(k - 1)
  }

  /** Bit `k` of `v` in two's complement, as `v & (1 << k)` tests it. */
  predicate Bit(v: int, k: nat)
  {
    (v / Pow2(k)) % 2 == 1
  }

  /** The bits of small non-negative type codes, as a check of the encoding. */
  lemma BitExamples()
    ensures Bit(1, 0) && !Bit(1, 1) && !Bit(1, 3)
    ensures !Bit(2, 0) && Bit(2, 1)
    ensures Bit(5, 0) && !Bit(6, 0) && Bit(6, 1)
    ensures !Bit(12, 0) && !Bit(12, 1) && Bit(12, 3)
    ensures Bit(-1, 0) && Bit(-1, 3)
  {
  }

  // ---------------------------------------------------------------------------
  // Circles
  // ---------------------------------------------------------------------------

  /** A circle: one position, fields 1 and 2, at one time, field 3. */
  function NewCircle(data: seq<string>): (r: Result<HitObject>)
    ensures r.Ok? ==> r.value.Circle? && |r.value.points| == 1 && |r.value.times| == 1
    ensures r.Ok? ==> && |data| >= 3
                      && ParseInt(data[0]).Ok? && ParseInt(data[1]).Ok? && ParseInt(data[2]).Ok?
                      && r.value.times[0] == ParseInt(data[2]).value
                      && r.value.points[0] == Pixel(ParseInt(data[0]).value as real, ParseInt(data[1]).value as real)
    ensures |data| < 3 ==> r == Err(IndexError)
    ensures |data| >= 3 ==> (r.Ok? <==> ParseInt(data[0]).Ok? && ParseInt(data[1]).Ok? && ParseInt(data[2]).Ok?)
    ensures |data| >= 3 && r.Err? ==> r.error == ValueError
  {
    var timeText :- Field(data, 2);
    var time :- ParseInt(timeText);
    var x :- ParseInt(data[0]);
    var y :- ParseInt(data[1]);
    Ok(Circle([Pixel(x as real, y as real)], [time]))
  }

  // ---------------------------------------------------------------------------
  // Sliders
  // ---------------------------------------------------------------------------

  /** One `x:y` control point; a piece that is not two integers is refused. */
  function ParsePoint(piece: string): (r: Result<Pixel>)
    ensures r == PointOf(Split(piece, ':'))
  {
    PointOf(Split(piece, ':'))
  }

  /**
   * `Pixel(*map(int, parts))`: every part is read as an integer first, so a
   * part that is not one raises ValueError; then any count but two is the
   * wrong number of arguments, a TypeError.
   */
  function PointOf(parts: seq<string>): (r: Result<Pixel>)
    ensures r.Ok? <==> |parts| == 2 && ParseInt(parts[0]).Ok? && ParseInt(parts[1]).Ok?
    ensures r.Ok? ==> r.value == Pixel(ParseInt(parts[0]).value as real, ParseInt(parts[1]).value as real)
    ensures ParseInts(parts).Err? ==> r == Err(ValueError)
    ensures ParseInts(parts).Ok? && |parts| != 2 ==> r == Err(TypeError)
  {
    PairParses(parts);
    var coords :- ParseInts(parts);
    if |coords| != 2 then Err(TypeError)
    else Ok(Pixel(coords[0] as real, coords[1] as real))
  }

  /** Two texts read as integers exactly when each of them does. */
  lemma PairParses(parts: seq<string>)
    ensures |parts| == 2 ==> (ParseInts(parts).Ok? <==> ParseInt(parts[0]).Ok? && ParseInt(parts[1]).Ok?)
  {
    if |parts| == 2 && ParseInt(parts[0]).Ok? && ParseInt(parts[1]).Ok? {
      forall i | 0 <= i < |parts|
        ensures ParseInt(parts[i]).Ok?
      {
        assert i == 0 || i == 1;
      }
    }
  }

  /** Every text read as an integer, the first failure winning. */
  function ParseInts(texts: seq<string>): (r: Result<seq<int>>)
    ensures r.Ok? ==> |r.value| == |texts| && forall i :: 0 <= i < |texts| ==> ParseInt(texts[i]) == Ok(r.value[i])
    ensures r.Ok? <==> forall i :: 0 <= i < |texts| ==> ParseInt(texts[i]).Ok?
    ensures r.Err? ==> r.error == ValueError
  {
    MapResult(ParseInt, texts)
  }

  /** Every piece read as a control point, the first failure winning. */
  function ParsePoints(pieces: seq<string>): (r: Result<seq<Pixel>>)
    ensures r.Ok? ==> |r.value| == |pieces| && forall i :: 0 <= i < |pieces| ==> ParsePoint(pieces[i]) == Ok(r.value[i])
    ensures r.Ok? <==> forall i :: 0 <= i < |pieces| ==> ParsePoint(pieces[i]).Ok?
    ensures r.Err? ==> exists i :: 0 <= i < |pieces| && ParsePoint(pieces[i]) == Err(r.error)
  {
    MapResult(ParsePoint, pieces)
  }

  /**
   * The slider's duration in milliseconds: its pixel length over a hundred
   * times the slider multiplier and the inherited speed multiple, in beats,
   * times the beat length.
   */
  function SlideDuration(length: real, multiplier: real, multiple: real, baseStep: real): (r: Result<real>)
    ensures r.Ok? <==> multiplier * multiple != 0.0
    ensures r.Err? ==> r.error == ZeroDivisionError
    ensures r.Ok? ==> r.value * (100.0 * multiplier * multiple) == length * baseStep
  {
    var beats := 100.0 * multiplier * multiple;
    if beats == 0.0 then Err(ZeroDivisionError)
    else
      assert length / beats * baseStep * beats == length * baseStep;
      Ok(length / beats * baseStep)
  }

  /**
   * `N + 1` times from `current` to `current + span` in equal steps; with no
   * positions the step divides by zero.
   */
  function EvenTimes(current: int, span: real, n: nat): (r: Result<seq<real>>)
    ensures r.Ok? <==> n > 0
    ensures r.Err? ==> r.error == ZeroDivisionError
    ensures r.Ok? ==> && |r.value| == n + 1
                      && r.value[0] == current as real
                      && r.value[n] == current as real + span
                      && forall i :: 0 <= i < n ==> r.value[i + 1] - r.value[i] == span / n as real
  {
    if n == 0 then Err(ZeroDivisionError)
    else
      var m := n as real;
      UnitDivisions(m);
      var ts := seq(n + 1, i requires 0 <= i <= n => EvenTime(current, span, m, i));
      assert forall i :: 0 <= i < n ==> EvenTime(current, span, m, i + 1) - EvenTime(current, span, m, i) == span / m by {
        forall i | 0 <= i < n {
          EvenStep(current, span, m, i);
        }
      }
      Ok(ts)
  }

  /** The `i`-th of the even times: `i / m` of the span after `current`. */
  function EvenTime(current: int, span: real, m: real, i: nat): real
    requires m > 0.0
  {
    current as real + span * (i as real / m)
  }

  /** Dividing a positive count by itself gives one, and zero by it gives zero. */
  lemma UnitDivisions(m: real)
    requires m > 0.0
    ensures m / m == 1.0 && 0.0 / m == 0.0
  {
  }

  /** One more step of `i / m` of a span adds `span / m`. */
  lemma EvenStep(current: int, span: real, m: real, i: nat)
    requires m > 0.0
    ensures EvenTime(current, span, m, i + 1) - EvenTime(current, span, m, i) == span / m
  {
    assert (i + 1) as real / m - i as real / m == 1.0 / m;
    assert span * ((i + 1) as real / m) - span * (i as real / m) == span * ((i + 1) as real / m - i as real / m);
  }

  /** Over a positive span the even times strictly increase. */
  lemma EvenTimesIncreasing(current: int, span: real, n: nat, i: nat, j: nat)
    requires n > 0 && span > 0.0 && i < j <= n
    ensures EvenTimes(current, span, n).value[i] < EvenTimes(current, span, n).value[j]
  {
    var qi, qj := i as real / n as real, j as real / n as real;
    assert qi < qj;
    assert span * qj - span * qi == span * (qj - qi);
  }

  /**
   * The shape every slider's path has: at least one position, all whole
   * numbers, and one more time than positions, from `current` to
   * `current + span` in equal steps.
   */
  predicate Framed(pts: seq<Pixel>, times: seq<real>, current: int, span: real)
  {
    && |pts| > 0 && |times| == |pts| + 1
    && (forall i :: 0 <= i < |pts| ==> IsIntegral(pts[i]))
    && times[0] == current as real && times[|pts|] == current as real + span
    && forall i :: 0 <= i < |pts| ==> times[i + 1] - times[i] == span / |pts| as real
  }

  /** The shared ending of the three slider shapes: round every position and time them evenly. */
  function Finish(raw: seq<Pixel>, current: int, span: real): (r: Result<(seq<Pixel>, seq<real>)>)
    ensures r.Ok? <==> raw != []
    ensures r.Err? ==> r.error == ZeroDivisionError
    ensures r.Ok? ==> var (pts, times) := r.value;
      && |pts| == |raw|
      && (forall i :: 0 <= i < |raw| ==> pts[i] == Round(raw[i]))
      && Framed(pts, times, current, span)
  {
    var pts := seq(|raw|, i requires 0 <= i < |raw| => Round(raw[i]));
    var times :- EvenTimes(current, span, |pts|);
    Ok((pts, times))
  }

  /** The straight segments between consecutive points, as `window(points, 2)` pairs them. */
  function Segments(points: seq<Pixel>): (r: seq<Curve>)
    ensures |points| >= 1 ==> |r| == |points| - 1
    ensures |points| == 0 ==> r == []
    ensures forall i :: 0 <= i < |r| ==> r[i] == Line(points[i], points[i + 1])
  {
    if |points| <= 1 then []
    else seq(|points| - 1, i requires 0 <= i < |points| - 1 => Line(points[i], points[i + 1]))
  }

  /** The length of each straight segment, as `calculate_length` measures it. */
  function SegmentLengths(env: Numerics, points: seq<Pixel>): (r: seq<real>)
    ensures |r| == |Segments(points)|
  {
    seq(|Segments(points)|, i requires 0 <= i < |Segments(points)| => LineLength(env, points[i], points[i + 1]))
  }

  /** Each segment's share of the duration, in frames: its length over the total, times the span. */
  function SegmentSteps(lengths: seq<real>, span: real): (r: seq<real>)
    requires lengths == [] || Sum(lengths) != 0.0
    ensures |r| == |lengths|
  {
    var full := Sum(lengths);
    seq(|lengths|, i requires 0 <= i < |lengths| => lengths[i] / full * span / FrameInterval)
  }

  /** What `init_L` computes, as a function of its points. */
  function LinePath(env: Numerics, points: seq<Pixel>, current: int, span: real): (r: Result<(seq<Pixel>, seq<real>)>)
    ensures |points| <= 1 ==> r == Err(ZeroDivisionError)
    ensures r.Ok? ==> Framed(r.value.0, r.value.1, current, span)
  {
    var lengths := SegmentLengths(env, points);
    if lengths != [] && Sum(lengths) == 0.0 then Err(ValueError)
    else
      var raw :- CalculatedPoints(env, Segments(points), SegmentSteps(lengths, span));
      Finish(raw, current, span)
  }

  /** What `init_P` computes once no two of its first three points coincide. */
  function ArcPath(env: Numerics, points: seq<Pixel>, current: int, span: real): (r: Result<(seq<Pixel>, seq<real>)>)
    ensures |points| != 3 ==> r == Err(ValueError)
    ensures r.Ok? ==> Framed(r.value.0, r.value.1, current, span)
  {
    var arc :- ArcCurve(env, points);
    var raw :- CalculatedPoints(env, [arc], [span / FrameInterval]);
    Finish(raw, current, span)
  }

  /** What `init_P` computes, as a function of its points. */
  function PerfectPath(env: Numerics, points: seq<Pixel>, current: int, span: real): (r: Result<(seq<Pixel>, seq<real>)>)
    ensures |points| < 3 ==> r == Err(IndexError)
    ensures r.Ok? ==> Framed(r.value.0, r.value.1, current, span)
  {
    if |points| < 3 then Err(IndexError)
    else if Equals(points[0], points[2]) then LinePath(env, points, current, span)
    else if Equals(points[0], points[1]) then LinePath(env, points[1..], current, span)
    else if Equals(points[1], points[2]) then LinePath(env, points[..|points| - 1], current, span)
    else ArcPath(env, points, current, span)
  }

  /** The estimated length of each Bezier piece. */
  function PieceLengths(env: Numerics, chunks: seq<seq<Pixel>>): (r: seq<real>)
    ensures |r| == |chunks|
  {
    seq(|chunks|, i requires 0 <= i < |chunks| => env.estimateLength(chunks[i]))
  }

  /** Each duration counted in frames. */
  function FrameCounts(durations: seq<real>): (r: seq<real>)
    ensures |r| == |durations|
  {
    seq(|durations|, i requires 0 <= i < |durations| => durations[i] / FrameInterval)
  }

  /** What `init_B` computes, as a function of its points. */
  function BezierPath(env: Numerics, points: seq<Pixel>, current: int, span: real): (r: Result<(seq<Pixel>, seq<real>)>)
    ensures points == [] ==> r == Err(UnboundLocalError)
    ensures r.Ok? ==> Framed(r.value.0, r.value.1, current, span)
  {
    var chunks :- SplitPieces(points);
    var shares := SplitTime(PieceLengths(env, chunks), span);
    if shares.None? then Err(ValueError)
    else
      var curves :- BezierCurves(env, chunks, shares.value);
      var raw :- CalculatedPoints(env, curves, FrameCounts(shares.value));
      Finish(raw, current, span)
  }

  /**
   * `init_L`: straight segments between consecutive points, each given a
   * share of the duration proportional to its length. Lengths adding up to
   * zero make the shares NaN, which no sample count accepts.
   */
  method InitLine(env: Numerics, points: seq<Pixel>, current: int, span: real) returns (r: Result<(seq<Pixel>, seq<real>)>)
    ensures |points| <= 1 ==> r == Err(ZeroDivisionError)
    ensures r.Ok? ==> Framed(r.value.0, r.value.1, current, span)
    ensures r == LinePath(env, points, current, span)
  {
    var chunks := Window(points, 2);
    var lines := seq(|chunks|, i requires 0 <= i < |chunks| => Line(chunks[i][0], chunks[i][1]));
    var lengths := seq(|chunks|, i requires 0 <= i < |chunks| => LineLength(env, chunks[i][0], chunks[i][1]));
    assert lines == Segments(points) && lengths == SegmentLengths(env, points);
    var full := Sum(lengths);
    if lengths != [] && full == 0.0 {
      return Err(ValueError);
    }
    var steps := seq(|lengths|, i requires 0 <= i < |lengths| => lengths[i] / full * span / FrameInterval);
    assert steps == SegmentSteps(lengths, span);
    var raw := CalculatePoints(env, lines, steps);
    if raw.Err? {
      return Err(raw.error);
    }
    r := Finish(raw.value, current, span);
  }

  /**
   * `init_P`: an arc through three points. When two of the points coincide the
   * slider is drawn as straight segments instead (all points when the first
   * and last agree, otherwise the two distinct ones).
   */
  method InitPerfect(env: Numerics, points: seq<Pixel>, current: int, span: real) returns (r: Result<(seq<Pixel>, seq<real>)>)
    ensures |points| < 3 ==> r == Err(IndexError)
    ensures |points| >= 3 && points[0] == points[2] ==> r == LinePath(env, points, current, span)
    ensures |points| >= 3 && points[0] != points[2] && points[0] == points[1] ==>
      r == LinePath(env, points[1..], current, span)
    ensures |points| >= 3 && points[0] != points[2] && points[0] != points[1] && points[1] == points[2] ==>
      r == LinePath(env, points[..|points| - 1], current, span)
    ensures |points| >= 3 && points[0] != points[2] && points[0] != points[1] && points[1] != points[2] ==>
      r == ArcPath(env, points, current, span)
    ensures |points| > 3 && points[0] != points[2] && points[0] != points[1] && points[1] != points[2] ==> r == Err(ValueError)
    ensures r.Ok? ==> Framed(r.value.0, r.value.1, current, span)
    ensures r == PerfectPath(env, points, current, span)
  {
    if |points| < 3 {
      return Err(IndexError);
    }
    if Equals(points[0], points[2]) {
      r := InitLine(env, points, current, span);
      return;
    } else if Equals(points[0], points[1]) {
      r := InitLine(env, points[1..], current, span);
      return;
    } else if Equals(points[1], points[2]) {
      r := InitLine(env, points[..|points| - 1], current, span);
      return;
    }
    var arc :- ArcCurve(env, points);
    var raw :- CalculatePoints(env, [arc], [span / FrameInterval]);
    r := Finish(raw, current, span);
  }

  /**
   * `init_B`: the control points cut at repeated points into Bezier pieces,
   * the duration shared among them by estimated length, each piece sampled
   * evenly over its share.
   */
  method InitBezier(env: Numerics, points: seq<Pixel>, current: int, span: real) returns (r: Result<(seq<Pixel>, seq<real>)>)
    ensures points == [] ==> r == Err(UnboundLocalError)
    ensures r.Ok? ==> Framed(r.value.0, r.value.1, current, span)
    ensures r == BezierPath(env, points, current, span)
  {
    var split := SplitSame(points);
    if split.Err? {
      return Err(split.error);
    }
    var chunks := split.value;
    var lengths := seq(|chunks|, i requires 0 <= i < |chunks| => env.estimateLength(chunks[i]));
    assert lengths == PieceLengths(env, chunks);
    var shares := SplitTime(lengths, span);
    if shares.None? {
      return Err(ValueError);
    }
    var durations := shares.value;
    var steps := seq(|durations|, i requires 0 <= i < |durations| => durations[i] / FrameInterval);
    assert steps == FrameCounts(durations);
    var curves := BezierCurves(env, chunks, durations);
    if curves.Err? {
      return Err(curves.error);
    }
    var raw := CalculatePoints(env, curves.value, steps);
    if raw.Err? {
      return Err(raw.error);
    }
    r := Finish(raw.value, current, span);
  }

  /** One Bezier wrapper per piece and duration, the first failure winning. */
  function BezierCurves(env: Numerics, chunks: seq<seq<Pixel>>, durations: seq<real>): (r: Result<seq<Curve>>)
    requires |chunks| == |durations|
    ensures r.Ok? ==> |r.value| == |chunks| && forall i :: 0 <= i < |chunks| ==> BezierCurve(env, chunks[i], durations[i]) == Ok(r.value[i])
  {
    if chunks == [] then Ok([])
    else
      var first :- BezierCurve(env, chunks[0], durations[0]);
      var rest :- BezierCurves(env, chunks[1..], durations[1..]);
      Ok([first] + rest)
  }

  /**
   * A Bezier piece is asked for `floor(duration / frame)` points and was
   * built with one more than that, so a sampler that returns the count it is
   * asked for never runs dry.
   */
  lemma BezierStreamSuffices(env: Numerics, chunk: seq<Pixel>, duration: real)
    requires duration >= 0.0
    requires forall ps: seq<Pixel>, k: int {:trigger env.bezierEvenlySpaced(ps, k)} :: |env.bezierEvenlySpaced(ps, k)| == k
    ensures var c := BezierCurve(env, chunk, duration);
      var m := (duration / FrameInterval).Floor;
      c.Ok? && m >= 0 && SampleRun(env, c.value, m, m).Ok?
  {
    assert duration / FrameInterval == duration * 60.0 / 1000.0;
    var c := BezierCurve(env, chunk, duration).value;
    var m := (duration / FrameInterval).Floor;
    var k := 0;
    while k < m
      invariant 0 <= k <= m && SampleRun(env, c, k, m).Ok?
    {
      k := k + 1;
    }
  }

  /** A sequence read backwards. */
  function Reverse<T>(s: seq<T>): (r: seq<T>)
    ensures |r| == |s| && forall i :: 0 <= i < |s| ==> r[i] == s[|s| - 1 - i]
  {
    seq(|s|, i requires 0 <= i < |s| => s[|s| - 1 - i])
  }

  /** Every time moved by `d`. */
  function Shift(ts: seq<real>, d: real): (r: seq<real>)
    ensures |r| == |ts| && forall i :: 0 <= i < |ts| ==> r[i] - ts[i] == d
  {
    seq(|ts|, i requires 0 <= i < |ts| => ts[i] + d)
  }

  /**
   * The positions after `passes` extra traversals: odd passes run back from
   * the end, even passes forward again, each without repeating the point it
   * starts from.
   */
  function PingPong(ps: seq<Pixel>, passes: nat): seq<Pixel>
  {
    if passes == 0 then ps
    else PingPong(ps, passes - 1) + (if passes % 2 == 1 then Rest(Reverse(ps)) else Rest(ps))
  }

  /** `k` durations added up one at a time, as the repeat loop accumulates them. */
  function Offset(k: nat, duration: real): real
  {
    if k == 0 then 0.0 else Offset(k - 1, duration) + duration
  }

  /** Adding up `k` durations gives `k` times the duration. */
  lemma {:induction false} OffsetIsProduct(k: nat, duration: real)
    ensures Offset(k, duration) == k as real * duration
  {
    if k > 0 {
      OffsetIsProduct(k - 1, duration);
      assert k as real * duration == (k - 1) as real * duration + duration;
    }
  }

  /** The times after `passes` extra traversals: pass `k` repeats the times shifted by `k` durations, without the first. */
  function RepeatTimes(ts: seq<real>, duration: real, passes: nat): seq<real>
  {
    if passes == 0 then ts
    else RepeatTimes(ts, duration, passes - 1) + Rest(Shift(ts, Offset(passes, duration)))
  }

  /** Moving by `a` and then by `b` is moving by `a + b`. */
  lemma ShiftTwice(ts: seq<real>, a: real, b: real)
    ensures Shift(Shift(ts, a), b) == Shift(ts, a + b)
  {
  }

  /**
   * The repeat loop of the slider constructor: `repeats - 1` extra passes,
   * alternating direction, starting with a reversed one; the time template
   * moves forward by one duration per pass.
   */
  method ExtendRepeats(ps: seq<Pixel>, ts: seq<real>, duration: real, passes: int) returns (points: seq<Pixel>, times: seq<real>)
    ensures var n := if passes > 0 then passes else 0;
      points == PingPong(ps, n) && times == RepeatTimes(ts, duration, n)
  {
    points := ps;
    times := ts;
    var tempTimes := ts;
    var reverse := true;
    var n := if passes > 0 then passes else 0;
    var k := 0;
    while k < n
      invariant 0 <= k <= n
      invariant points == PingPong(ps, k) && times == RepeatTimes(ts, duration, k)
      invariant tempTimes == Shift(ts, Offset(k, duration))
      invariant reverse <==> k % 2 == 0
    {
      RepeatTimesNext(ts, duration, k);
      PingPongNext(ps, k);
      if reverse {
        points := points + Rest(Reverse(ps));
      } else {
        points := points + Rest(ps);
      }
      tempTimes := Shift(tempTimes, duration);
      times := times + Rest(tempTimes);
      reverse := !reverse;
      k := k + 1;
    }
  }

  /** One more pass appends the template moved by one more duration. */
  lemma RepeatTimesNext(ts: seq<real>, duration: real, k: nat)
    ensures Shift(Shift(ts, Offset(k, duration)), duration) == Shift(ts, Offset(k + 1, duration))
    ensures RepeatTimes(ts, duration, k + 1) == RepeatTimes(ts, duration, k) + Rest(Shift(ts, Offset(k + 1, duration)))
  {
    ShiftTwice(ts, Offset(k, duration), duration);
  }

  /** One more pass runs backwards exactly when an even number came before it. */
  lemma PingPongNext(ps: seq<Pixel>, k: nat)
    ensures PingPong(ps, k + 1) == PingPong(ps, k) + (if k % 2 == 0 then Rest(Reverse(ps)) else Rest(ps))
    ensures (k + 1) % 2 == 0 <==> k % 2 != 0
  {
  }

  /** Each extra pass adds one point fewer than the path has. */
  lemma {:induction false} PingPongLength(ps: seq<Pixel>, passes: nat)
    requires ps != []
    ensures |PingPong(ps, passes)| == |ps| + passes * (|ps| - 1)
  {
    if passes > 0 {
      PingPongLength(ps, passes - 1);
      assert passes * (|ps| - 1) == (passes - 1) * (|ps| - 1) + (|ps| - 1);
    }
  }

  /** `k * m <= n * m` for `k <= n` and non-negative `m`. */
  lemma MulMonotone(k: nat, n: nat, m: nat)
    requires k <= n
    ensures k * m <= n * m
  {
    assert n * m - k * m == (n - k) * m;
  }

  /**
   * The end of traversal `k` sits at index `k * (|ps| - 1)`: the start of the
   * path after an even number of traversals, its end after an odd number.
   */
  lemma {:induction false} PingPongEnd(ps: seq<Pixel>, passes: nat, k: nat)
    requires ps != [] && k <= passes + 1
    ensures k * (|ps| - 1) < |PingPong(ps, passes)|
    ensures PingPong(ps, passes)[k * (|ps| - 1)] == if k % 2 == 0 then ps[0] else ps[|ps| - 1]
  {
    if k == 0 {
      PingPongPrefix(ps, 0, passes);
      assert PingPong(ps, passes)[0] == PingPong(ps, passes)[..|ps|][0];
    } else {
      var j, m := k - 1, |ps| - 1;
      PingPongEndAt(ps, passes, j);
      PingPongLength(ps, j);
      MulSucc(j, m);
      assert k * m == |PingPong(ps, j)| - 1;
    }
  }

  /** `(j + 1) * m` is `j * m + m`. */
  lemma MulSucc(j: nat, m: nat)
    ensures (j + 1) * m == j * m + m
  {
  }

  /** The last position after `j` passes stays where it is after any later pass. */
  lemma PingPongEndAt(ps: seq<Pixel>, passes: nat, j: nat)
    requires ps != [] && j <= passes
    ensures PingPong(ps, j) != [] && |PingPong(ps, j)| <= |PingPong(ps, passes)|
    ensures PingPong(ps, passes)[|PingPong(ps, j)| - 1] == if j % 2 == 1 then ps[0] else ps[|ps| - 1]
  {
    PingPongPrefix(ps, j, passes);
    PingPongLast(ps, j);
    var before := PingPong(ps, j);
    assert PingPong(ps, passes)[..|before|][|before| - 1] == before[|before| - 1];
  }

  /** The positions after fewer passes are a prefix of those after more. */
  lemma {:induction false} PingPongPrefix(ps: seq<Pixel>, j: nat, passes: nat)
    requires j <= passes
    ensures |PingPong(ps, j)| <= |PingPong(ps, passes)|
    ensures PingPong(ps, passes)[..|PingPong(ps, j)|] == PingPong(ps, j)
    decreases passes
  {
    if j < passes {
      PingPongPrefix(ps, j, passes - 1);
      var front := PingPong(ps, passes - 1);
      var tail := if passes % 2 == 1 then Rest(Reverse(ps)) else Rest(ps);
      assert PingPong(ps, passes) == front + tail;
      assert (front + tail)[..|PingPong(ps, j)|] == front[..|PingPong(ps, j)|];
    } else {
      assert PingPong(ps, passes)[..|PingPong(ps, passes)|] == PingPong(ps, passes);
    }
  }

  /** After an odd number of passes the positions end at the path's start, after an even number at its end. */
  lemma {:induction false} PingPongLast(ps: seq<Pixel>, passes: nat)
    requires ps != []
    ensures PingPong(ps, passes) != []
    ensures PingPong(ps, passes)[|PingPong(ps, passes)| - 1] == if passes % 2 == 1 then ps[0] else ps[|ps| - 1]
  {
    if passes > 0 {
      PingPongLast(ps, passes - 1);
      var front := PingPong(ps, passes - 1);
      var tail := if passes % 2 == 1 then Rest(Reverse(ps)) else Rest(ps);
      assert PingPong(ps, passes) == front + tail;
      if |ps| == 1 {
        assert tail == [];
        assert front + tail == front;
      } else {
        assert (front + tail)[|front + tail| - 1] == tail[|tail| - 1];
      }
    }
  }

  /** Strictly increasing. */
  predicate Increasing(ts: seq<real>)
  {
    forall i, j :: 0 <= i < j < |ts| ==> ts[i] < ts[j]
  }

  /**
   * When the template's span is at most one duration, the repeated times keep
   * increasing, and the last one is the template's last moved by one duration
   * per pass.
   */
  lemma {:induction false} RepeatTimesIncreasing(ts: seq<real>, duration: real, passes: nat)
    requires |ts| >= 2 && Increasing(ts) && ts[|ts| - 1] - ts[0] <= duration
    ensures Increasing(RepeatTimes(ts, duration, passes))
  {
    if passes > 0 {
      var prev := RepeatTimes(ts, duration, passes - 1);
      var d := Offset(passes, duration);
      var tail := Rest(Shift(ts, d));
      assert Increasing(prev) by {
        RepeatTimesIncreasing(ts, duration, passes - 1);
      }
      assert prev != [] && tail != [] && prev[|prev| - 1] < tail[0] by {
        RepeatTimesLast(ts, duration, passes - 1);
        ShiftedRestIncreasing(ts, d);
        assert d == Offset(passes - 1, duration) + duration;
      }
      assert Increasing(tail) by {
        ShiftedRestIncreasing(ts, d);
      }
      AppendIncreasing(prev, tail);
      assert RepeatTimes(ts, duration, passes) == prev + tail;
    }
  }

  /** The last repeated time is the template's last moved by every pass's duration. */
  lemma {:induction false} RepeatTimesLast(ts: seq<real>, duration: real, passes: nat)
    requires |ts| >= 2
    ensures var r := RepeatTimes(ts, duration, passes);
      && |r| >= |ts|
      && r[|r| - 1] == ts[|ts| - 1] + Offset(passes, duration)
  {
    if passes > 0 {
      RepeatTimesLast(ts, duration, passes - 1);
      var prev := RepeatTimes(ts, duration, passes - 1);
      var d := Offset(passes, duration);
      var tail := Rest(Shift(ts, d));
      assert RepeatTimes(ts, duration, passes) == prev + tail;
      assert tail[|tail| - 1] == ts[|ts| - 1] + d;
    }
  }

  /** A moved increasing run without its first item still increases, and starts at its second item moved. */
  lemma ShiftedRestIncreasing(ts: seq<real>, d: real)
    requires |ts| >= 2 && Increasing(ts)
    ensures var tail := Rest(Shift(ts, d)); |tail| >= 1 && tail[0] == ts[1] + d && Increasing(tail)
  {
    var tail := Rest(Shift(ts, d));
    forall i, j | 0 <= i < j < |tail|
      ensures tail[i] < tail[j]
    {
      assert tail[i] == ts[i + 1] + d && tail[j] == ts[j + 1] + d;
    }
  }

  /** Two increasing runs, the second starting above the end of the first, join into one. */
  lemma AppendIncreasing(a: seq<real>, b: seq<real>)
    requires a != [] && b != [] && Increasing(a) && Increasing(b) && a[|a| - 1] < b[0]
    ensures Increasing(a + b)
  {
    var r := a + b;
    forall i, j | 0 <= i < j < |r|
      ensures r[i] < r[j]
    {
      if i < |a| && j >= |a| {
        assert r[i] <= a[|a| - 1];
        assert b[0] <= r[j];
      }
    }
  }

  /**
   * A slider with at least two positions keeps at least as many times as
   * positions after its repeats, so every position is paired with a time.
   */
  lemma RepeatsKeepTimesForPoints(ps: seq<Pixel>, ts: seq<real>, duration: real, passes: nat)
    requires ps != [] && |ts| == |ps| + 1
    ensures |RepeatTimes(ts, duration, passes)| == |PingPong(ps, passes)| + passes + 1
  {
    PingPongLength(ps, passes);
    RepeatTimesLength(ts, duration, passes);
  }

  lemma {:induction false} RepeatTimesLength(ts: seq<real>, duration: real, passes: nat)
    requires ts != []
    ensures |RepeatTimes(ts, duration, passes)| == |ts| + passes * (|ts| - 1)
  {
    if passes > 0 {
      var m := |ts| - 1;
      RepeatTimesLength(ts, duration, passes - 1);
      assert |Rest(Shift(ts, Offset(passes, duration)))| == m;
      MulSucc(passes - 1, m);
    }
  }

  /** Rounding increasing times leaves them in order. */
  lemma RoundedTimesOrdered(ts: seq<real>, i: nat, j: nat)
    requires Increasing(ts) && i <= j < |ts|
    ensures RoundHalfEven(ts[i]) <= RoundHalfEven(ts[j])
  {
    if i < j {
      RoundMonotone(ts[i], ts[j]);
    }
  }

  /** How many leading time points have started by `time`. */
  function InForce(timePoints: seq<TimePoint>, time: int): (k: nat)
    ensures k <= |timePoints|
    ensures forall i :: 0 <= i < k ==> timePoints[i].start <= time
    ensures k < |timePoints| ==> timePoints[k].start > time
  {
    if timePoints == [] || timePoints[0].start > time then 0
    else 1 + InForce(timePoints[1..], time)
  }

  /** The last of the leading time points that have started by `time`; IndexError when there is none. */
  function CurrentPoint(timePoints: seq<TimePoint>, time: int): Result<TimePoint>
  {
    var k := InForce(timePoints, time);
    if k == 0 then Err(IndexError) else Ok(timePoints[k - 1])
  }

  /**
   * `time_points` walked while their start is not after the object's time;
   * the last of them is in force, and none at all raises IndexError.
   */
  method CurrentTimePoint(timePoints: seq<TimePoint>, time: int) returns (r: Result<TimePoint>)
    ensures r.Ok? <==> timePoints != [] && timePoints[0].start <= time
    ensures r.Err? ==> r.error == IndexError
    ensures r.Ok? ==> exists i :: && 0 <= i < |timePoints| && r.value == timePoints[i]
                                  && (forall k :: 0 <= k <= i ==> timePoints[k].start <= time)
                                  && (i + 1 < |timePoints| ==> timePoints[i + 1].start > time)
    ensures r == CurrentPoint(timePoints, time)
  {
    var prefix := Until((p: TimePoint) => p, timePoints, (p: TimePoint) => p.start <= time);
    var k := InForce(timePoints, time);
    assert |prefix| == k;
    if prefix == [] {
      return Err(IndexError);
    }
    var i := |prefix| - 1;
    return Ok(prefix[i]);
  }

  /** The parts of a slider line that decide its path. */
  datatype SlideHead = SlideHead(start: int, flag: string, points: seq<Pixel>, length: real, duration: real)

  /** The parsing half of the slider constructor, as a function of the line's fields. */
  function SlideHeadOf(data: seq<string>, timePoints: seq<TimePoint>, difficulty: Difficulty): (r: Result<SlideHead>)
    ensures timePoints == [] ==> r == Err(IndexError)
    ensures r.Ok? ==> && |data| >= 8 && ParseInt(data[2]) == Ok(r.value.start) && ParseReal(data[7]) == Ok(r.value.length)
                      && ParseInt(data[0]).Ok? && ParseInt(data[1]).Ok? && |r.value.points| >= 1
                      && r.value.points[0] == Pixel(ParseInt(data[0]).value as real, ParseInt(data[1]).value as real)
                      && r.value.flag == Split(data[5], '|')[0]
                      && ParsePoints(Split(data[5], '|')[1..]) == Ok(r.value.points[1..])
                      && CurrentPoint(timePoints, r.value.start).Ok?
    ensures r.Ok? ==> var current := CurrentPoint(timePoints, r.value.start).value;
      SlideDuration(r.value.length, difficulty.sliderMutiplier, current.multiple, current.baseStep) == Ok(r.value.duration)
  {
    if timePoints == [] then Err(IndexError)
    else
      var startText :- Field(data, 2);
      var start :- ParseInt(startText);
      var current :- CurrentPoint(timePoints, start);
      var curveText :- Field(data, 5);
      var pieces := Split(curveText, '|');
      var x :- ParseInt(data[0]);
      var y :- ParseInt(data[1]);
      var rest :- ParsePoints(pieces[1..]);
      var lengthText :- Field(data, 7);
      var length :- ParseReal(lengthText);
      var duration :- SlideDuration(length, difficulty.sliderMutiplier, current.multiple, current.baseStep);
      assert ([Pixel(x as real, y as real)] + rest)[1..] == rest;
      Ok(SlideHead(start, pieces[0], [Pixel(x as real, y as real)] + rest, length, duration))
  }

  /**
   * The parsing half of the slider constructor: the time point in force at
   * the start time, the curve letter and control points of field 6 (the
   * head position first), the pixel length of field 8 and the duration it
   * takes at the current beat length and velocity.
   */
  method ParseSlide(data: seq<string>, timePoints: seq<TimePoint>, difficulty: Difficulty) returns (r: Result<SlideHead>)
    ensures timePoints == [] ==> r == Err(IndexError)
    ensures r.Ok? ==> && |data| >= 8 && ParseInt(data[2]) == Ok(r.value.start) && ParseReal(data[7]) == Ok(r.value.length)
                      && ParseInt(data[0]).Ok? && ParseInt(data[1]).Ok? && |r.value.points| >= 1
                      && r.value.points[0] == Pixel(ParseInt(data[0]).value as real, ParseInt(data[1]).value as real)
                      && r.value.flag == Split(data[5], '|')[0]
    ensures r == SlideHeadOf(data, timePoints, difficulty)
  {
    if timePoints == [] {
      return Err(IndexError);
    }
    var startText :- Field(data, 2);
    var start :- ParseInt(startText);
    var current :- CurrentTimePoint(timePoints, start);
    var curveText :- Field(data, 5);
    var pieces := Split(curveText, '|');
    var x :- ParseInt(data[0]);
    var y :- ParseInt(data[1]);
    var rest :- ParsePoints(pieces[1..]);
    var lengthText :- Field(data, 7);
    var length :- ParseReal(lengthText);
    var duration :- SlideDuration(length, difficulty.sliderMutiplier, current.multiple, current.baseStep);
    return Ok(SlideHead(start, pieces[0], [Pixel(x as real, y as real)] + rest, length, duration));
  }

  /** The path the curve letter selects; a letter with no case leaves the slider without positions. */
  function ShapeOf(env: Numerics, head: SlideHead): (r: Result<(seq<Pixel>, seq<real>)>)
    ensures head.flag != "B" && head.flag != "P" && head.flag != "L" ==> r == Err(AttributeError)
    ensures r.Ok? ==> Framed(r.value.0, r.value.1, head.start, head.duration)
  {
    if head.flag == "B" then BezierPath(env, head.points, head.start, head.duration)
    else if head.flag == "P" then PerfectPath(env, head.points, head.start, head.duration)
    else if head.flag == "L" then LinePath(env, head.points, head.start, head.duration)
    else Err(AttributeError)
  }

  /** The `match` on the curve letter; a letter with no case leaves the slider without positions. */
  method ShapeSlide(env: Numerics, head: SlideHead) returns (r: Result<(seq<Pixel>, seq<real>)>)
    ensures head.flag == "B" ==> r == BezierPath(env, head.points, head.start, head.duration)
    ensures head.flag == "P" ==> r == PerfectPath(env, head.points, head.start, head.duration)
    ensures head.flag == "L" ==> r == LinePath(env, head.points, head.start, head.duration)
    ensures head.flag != "B" && head.flag != "P" && head.flag != "L" ==> r == Err(AttributeError)
    ensures r.Ok? ==> Framed(r.value.0, r.value.1, head.start, head.duration)
    ensures r == ShapeOf(env, head)
  {
    if head.flag == "B" {
      r := InitBezier(env, head.points, head.start, head.duration);
    } else if head.flag == "P" {
      r := InitPerfect(env, head.points, head.start, head.duration);
    } else if head.flag == "L" {
      r := InitLine(env, head.points, head.start, head.duration);
    } else {
      r := Err(AttributeError);
    }
  }

  /** Every time rounded half to even. */
  function RoundedAll(ts: seq<real>): (r: seq<int>)
    ensures |r| == |ts| && forall i :: 0 <= i < |ts| ==> r[i] == RoundHalfEven(ts[i])
  {
    seq(|ts|, i requires 0 <= i < |ts| => RoundHalfEven(ts[i]))
  }

  /** The path walked `repeats` times in all (at least once) and its times, rounded. */
  function Repeated(ps: seq<Pixel>, ts: seq<real>, duration: real, repeats: int): (seq<Pixel>, seq<int>)
  {
    var n := if repeats - 1 > 0 then repeats - 1 else 0;
    (PingPong(ps, n), RoundedAll(RepeatTimes(ts, duration, n)))
  }

  /** The whole slider constructor, as a function of the line's fields. */
  function SlideOf(env: Numerics, data: seq<string>, timePoints: seq<TimePoint>, difficulty: Difficulty): (r: Result<HitObject>)
    ensures timePoints == [] ==> r == Err(IndexError)
    ensures r.Ok? ==> && r.value.Slide? && SlideHeadOf(data, timePoints, difficulty).Ok?
                      && ParseInt(data[6]).Ok?
                      && r.value.length == SlideHeadOf(data, timePoints, difficulty).value.length
  {
    var head :- SlideHeadOf(data, timePoints, difficulty);
    var base :- ShapeOf(env, head);
    var repeats :- ParseInt(data[6]);
    var (points, times) := Repeated(base.0, base.1, head.duration, repeats);
    Ok(Slide(points, times, head.length))
  }

  /**
   * The repeat loop and the final rounding: the path walked `repeats` times in
   * all, the times shifted one duration per pass and rounded half to even.
   */
  method RepeatSlide(ps: seq<Pixel>, ts: seq<real>, duration: real, repeats: int) returns (points: seq<Pixel>, times: seq<int>)
    requires ps != [] && |ts| == |ps| + 1
    requires forall i :: 0 <= i < |ps| ==> IsIntegral(ps[i])
    ensures var n := if repeats - 1 > 0 then repeats - 1 else 0;
      && points == PingPong(ps, n)
      && |times| == |RepeatTimes(ts, duration, n)|
      && forall i :: 0 <= i < |times| ==> times[i] == RoundHalfEven(RepeatTimes(ts, duration, n)[i])
    ensures |points| > 0 && |times| > |points|
    ensures forall i :: 0 <= i < |points| ==> IsIntegral(points[i])
    ensures (points, times) == Repeated(ps, ts, duration, repeats)
  {
    var allTimes;
    points, allTimes := ExtendRepeats(ps, ts, duration, repeats - 1);
    var n := if repeats - 1 > 0 then repeats - 1 else 0;
    RepeatsKeepTimesForPoints(ps, ts, duration, n);
    PingPongIntegral(ps, n);
    times := seq(|allTimes|, i requires 0 <= i < |allTimes| => RoundHalfEven(allTimes[i]));
    assert |times| == |points| + n + 1;
    assert |points| >= |ps| by {
      PingPongLength(ps, n);
      assert n * (|ps| - 1) >= 0;
    }
  }

  /**
   * `Slide(data, time_points, difficulty)`: parse, draw the path of the
   * curve letter, then repeat it the number of times field 7 gives.
   */
  method NewSlide(env: Numerics, data: seq<string>, timePoints: seq<TimePoint>, difficulty: Difficulty)
    returns (r: Result<HitObject>)
    ensures timePoints == [] ==> r == Err(IndexError)
    ensures r.Ok? ==> r.value.Slide? && |r.value.points| > 0 && |r.value.times| > |r.value.points|
    ensures r.Ok? ==> forall i :: 0 <= i < |r.value.points| ==> IsIntegral(r.value.points[i])
    ensures r.Ok? ==> |data| >= 8 && ParseReal(data[7]) == Ok(r.value.length)
    ensures r == SlideOf(env, data, timePoints, difficulty)
  {
    var head :- ParseSlide(data, timePoints, difficulty);
    var shape := ShapeSlide(env, head);
    if shape.Err? {
      return Err(shape.error);
    }
    var (basePoints, baseTimes) := shape.value;
    var repeats := ParseInt(data[6]);
    if repeats.Err? {
      return Err(repeats.error);
    }
    var points, times := RepeatSlide(basePoints, baseTimes, head.duration, repeats.value);
    return Ok(Slide(points, times, head.length));
  }

  /** Repeating a path of whole-number positions keeps them whole numbers. */
  lemma {:induction false} PingPongIntegral(ps: seq<Pixel>, passes: nat)
    requires forall i :: 0 <= i < |ps| ==> IsIntegral(ps[i])
    ensures forall i :: 0 <= i < |PingPong(ps, passes)| ==> IsIntegral(PingPong(ps, passes)[i])
  {
    if passes > 0 {
      PingPongIntegral(ps, passes - 1);
    }
  }

  // ---------------------------------------------------------------------------
  // Spinners
  // ---------------------------------------------------------------------------

  /** Radius of the spinner circle. */
  const SpinRadius: real := 44.0
  /** Centre of the spinner circle, the middle of the playfield. */
  const SpinCentre: Pixel := Pixel(256.0, 192.0)
  /** Spinner turns per second. */
  const SpinRate: real := 477.26 / 120.0

  /** The rounded point of the spinner circle at angle `t`. */
  function SpinPoint(env: Numerics, t: real): (r: Pixel)
    ensures IsIntegral(r)
    ensures -0.5 <= r.x - (SpinCentre.x + SpinRadius * env.cos(t)) <= 0.5
    ensures -0.5 <= r.y - (SpinCentre.y + SpinRadius * env.sin(t)) <= 0.5
  {
    Pixel(RoundHalfEven(SpinCentre.x + SpinRadius * env.cos(t)) as real,
          RoundHalfEven(SpinCentre.y + SpinRadius * env.sin(t)) as real)
  }

  /** The angle a spinner from `start` to `end` sweeps: its turns per second times its length in seconds, in radians. */
  function SpinSweep(start: int, end: int): real
  {
    SpinRate * (end - start) as real / 1000.0 * 2.0 * Pi
  }

  /** The number of frames a spinner from `start` to `end` lasts, rounded up. */
  function SpinCount(start: int, end: int): int
  {
    Ceil((end - start) as real / FrameInterval)
  }

  /** The spinner's positions: the circle walked backwards from angle `sweep` to angle zero. */
  function SpinPoints(env: Numerics, sweep: real, count: nat): (r: seq<Pixel>)
    ensures |r| == count
    ensures forall k :: 0 <= k < count ==> r[k] == SpinPoint(env, Linspace(0.0, sweep, count)[count - 1 - k])
    ensures count >= 1 ==> r[count - 1] == SpinPoint(env, 0.0)
    ensures count >= 2 ==> r[0] == SpinPoint(env, sweep)
  {
    var angles := Linspace(0.0, sweep, count);
    seq(count, k requires 0 <= k < count => SpinPoint(env, angles[count - 1 - k]))
  }

  /** The spinner's times: `count` evenly spaced times from `start` to `end`, rounded up. */
  function SpinTimes(start: int, end: int, count: nat): (r: seq<int>)
    ensures |r| == count
    ensures count >= 1 ==> r[0] == start
    ensures count >= 2 ==> r[count - 1] == end
    ensures start <= end ==> forall i, j :: 0 <= i <= j < count ==> r[i] <= r[j]
    ensures forall k :: 0 <= k < count ==> r[k] == Ceil(Linspace(start as real, end as real, count)[k])
  {
    var stamps := Linspace(start as real, end as real, count);
    CeilOfInteger(start);
    CeilOfInteger(end);
    var r := seq(count, k requires 0 <= k < count => Ceil(stamps[k]));
    SpinTimesOrdered(start, end, count, r);
    r
  }

  /** Rounding up evenly spaced increasing times keeps them in order. */
  lemma SpinTimesOrdered(start: int, end: int, count: nat, r: seq<int>)
    requires |r| == count
    requires forall k :: 0 <= k < count ==> r[k] == Ceil(Linspace(start as real, end as real, count)[k])
    ensures start <= end ==> forall i, j :: 0 <= i <= j < count ==> r[i] <= r[j]
  {
    if start <= end {
      forall i, j | 0 <= i <= j < count
        ensures r[i] <= r[j]
      {
        LinspaceMonotone(start as real, end as real, count, i, j);
        CeilMonotone(Linspace(start as real, end as real, count)[i], Linspace(start as real, end as real, count)[j]);
      }
    }
  }

  /**
   * A spinner from `start` to `end`: one position per frame, walking the
   * circle backwards from the full sweep to angle zero, with rounded-up times.
   * A negative count is refused by linspace.
   */
  function SpinOf(env: Numerics, start: int, end: int): (r: Result<HitObject>)
    ensures r.Ok? <==> SpinCount(start, end) >= 0
    ensures r.Err? ==> r.error == ValueError
    ensures r.Ok? ==> var count := SpinCount(start, end);
      && r.value.Spin? && |r.value.points| == count && |r.value.times| == count
      && (count >= 1 ==> r.value.times[0] == start && r.value.points[count - 1] == SpinPoint(env, 0.0))
      && (count >= 2 ==> r.value.times[count - 1] == end)
      && (forall i, j :: 0 <= i <= j < count ==> r.value.times[i] <= r.value.times[j])
    ensures r.Ok? ==> var count := SpinCount(start, end);
      && r.value.points == SpinPoints(env, SpinSweep(start, end), count)
      && r.value.times == SpinTimes(start, end, count)
  {
    var sweep := SpinSweep(start, end);
    var count := SpinCount(start, end);
    if count < 0 then Err(ValueError)
    else
      assert count > 0 ==> start < end;
      Ok(Spin(SpinPoints(env, sweep, count), SpinTimes(start, end, count)))
  }

  /** `Spin(data)`: start from field 3, end from field 6, each read before the next is looked up. */
  function NewSpin(env: Numerics, data: seq<string>): (r: Result<HitObject>)
    ensures |data| < 3 ==> r == Err(IndexError)
    ensures |data| >= 3 && ParseInt(data[2]).Err? ==> r == Err(ValueError)
    ensures |data| >= 3 && ParseInt(data[2]).Ok? && |data| < 6 ==> r == Err(IndexError)
    ensures |data| >= 6 && ParseInt(data[2]).Ok? && ParseInt(data[5]).Err? ==> r == Err(ValueError)
    ensures |data| >= 6 && ParseInt(data[2]).Ok? && ParseInt(data[5]).Ok? ==>
      r == SpinOf(env, ParseInt(data[2]).value, ParseInt(data[5]).value)
  {
    var startText :- Field(data, 2);
    var start :- ParseInt(startText);
    var endText :- Field(data, 5);
    var end :- ParseInt(endText);
    SpinOf(env, start, end)
  }

  /** `math.ceil` of a whole number is that number. */
  lemma CeilOfInteger(k: int)
    ensures Ceil(k as real) == k
  {
    assert (k as real).Floor == k;
  }

  /** `math.ceil` never reverses the order of two values. */
  lemma CeilMonotone(x: real, y: real)
    requires x <= y
    ensures Ceil(x) <= Ceil(y)
  {
  }

  // ---------------------------------------------------------------------------
  // Dispatch and iteration
  // ---------------------------------------------------------------------------

  /** The kind of object a hit-object line yields follows the bits of its fourth field. */
  predicate KindMatches(raw: string, o: Option<HitObject>)
  {
    var data := Split(raw, ',');
    && |data| >= 4 && ParseInt(data[3]).Ok?
    && var ty := ParseInt(data[3]).value;
    && (o.Some? && o.value.Circle? <==> Bit(ty, 0))
    && (o.Some? && o.value.Slide? <==> !Bit(ty, 0) && Bit(ty, 1))
    && (o.Some? && o.value.Spin? <==> !Bit(ty, 0) && !Bit(ty, 1) && Bit(ty, 3))
  }

  /** What `from_source` builds from one line, as a function of its text. */
  function HitObjectOf(env: Numerics, raw: string, timePoints: seq<TimePoint>, difficulty: Difficulty): (r: Result<Option<HitObject>>)
    ensures r.Ok? ==> KindMatches(raw, r.value)
  {
    var data := Split(raw, ',');
    var tyText :- Field(data, 3);
    var ty :- ParseInt(tyText);
    if Bit(ty, 0) then
      var c :- NewCircle(data);
      Ok(Some(c))
    else if Bit(ty, 1) then
      var s :- SlideOf(env, data, timePoints, difficulty);
      Ok(Some(s))
    else if Bit(ty, 3) then
      var s :- NewSpin(env, data);
      Ok(Some(s))
    else Ok(None)
  }

  /**
   * `from_source`: the fourth field's bits choose the kind; bit 0 a circle,
   * else bit 1 a slider, else bit 3 a spinner, else nothing.
   */
  method FromSource(env: Numerics, raw: string, timePoints: seq<TimePoint>, difficulty: Difficulty)
    returns (r: Result<Option<HitObject>>)
    ensures r.Ok? ==> KindMatches(raw, r.value)
    ensures r == HitObjectOf(env, raw, timePoints, difficulty)
  {
    var data := Split(raw, ',');
    var tyText :- Field(data, 3);
    var ty :- ParseInt(tyText);
    if Bit(ty, 0) {
      var c :- NewCircle(data);
      return Ok(Some(c));
    } else if Bit(ty, 1) {
      var s :- NewSlide(env, data, timePoints, difficulty);
      return Ok(Some(s));
    } else if Bit(ty, 3) {
      var s :- NewSpin(env, data);
      return Ok(Some(s));
    }
    return Ok(None);
  }

  /** Iterating a hit object pairs each position with its time, as far as both go. */
  function Samples(obj: HitObject): (r: seq<(Pixel, int)>)
    ensures |r| == if |obj.points| < |obj.times| then |obj.points| else |obj.times|
    ensures forall i :: 0 <= i < |r| ==> r[i] == (obj.points[i], obj.times[i])
  {
    var n := if |obj.points| < |obj.times| then |obj.points| else |obj.times|;
    seq(n, i requires 0 <= i < n => (obj.points[i], obj.times[i]))
  }
}
